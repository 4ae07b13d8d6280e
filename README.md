# Webcam emotion detection: annotation and capture loop

A Dafny model of the logic in `face_square.py`, a webcam demo. Each frame goes to a
pre-trained emotion classifier. The dominant emotion and every emotion's confidence are
drawn on the frame. In trend mode, the dominant emotion is sampled on a one-second
schedule, and the samples go to a plot at shutdown.

The model has four modules:

- `Annotator` (`annotator.dfy`) models `draw_emotion_info` and `draw_error_message`.
  - A frame is a `Frame` object holding the list of drawing calls made on it.
  - `DominantIndex` is Python's `max(emotions, key=emotions.get)`: the first entry of
    greatest confidence.
  - `EmotionInfo` gives the calls `draw_emotion_info` makes and the exception it raises,
    if any. `max` of an empty mapping raises ValueError. A label with no colour raises
    KeyError. For the dominant label that happens before anything is drawn; for a list
    row it happens after the earlier rows are drawn.
  - `DrawEmotionInfo` is the imperative version and keeps the source's `enumerate` loop.
- `Trend` (`trend.dfy`) models main's three sampling variables.
  - `Sampler` is a class holding `next_capture_time`, `time_stamps` and
    `dominant_emotions`. `Step` is the sampling code run after each frame.
  - `Sample` is the pure specification of `Step`. `Consistent` is their shared invariant:
    the two lists have equal length, the deadline is start + 1 + the number of samples,
    and sample k was taken at least k + 1 seconds after the start.
- `CaptureLoop` (`capture_loop.dfy`) models `main` from the camera check on.
  - `Loop` and `Session` specify the run as a list of external effects: console lines,
    frames shown, release, window teardown, and the trend hand-off.
  - `Run` is the driver. It loops over a finite list of frame events with a `Sampler`
    and a fresh `Frame` per iteration, and is proved equal to `Session`.
  - The lemmas cover lockstep, at most one sample per frame, no sampling without a face
    or with trend mode off, non-decreasing times, keeping up with the one-second cadence,
    where the loop exits, and exactly one teardown.
- `Scenarios` (`scenarios.dfy`) holds concrete runs.

The model's inputs:

- whether the camera opened;
- the start-time clock reading;
- trend mode;
- one `FrameEvent` per loop iteration. An event is either a failed read, or a read frame
  carrying:
  - the detector's answer: an exception, or a list of faces, of which only the first is
    used;
  - the value `time.time()` returns at face_square.py:101;
  - the code `waitKey` returns.

The quit test `waitKey(1) & 0xFF == ord('q')` is `key % 256 == 113`. For the divisor
256, Dafny's Euclidean `%` agrees with Python's masking of negative codes.

If the event list ends before a stop event, the loop is still running. `Loop` then
reports `stopped == false`, and there is no teardown.

Behaviour of the code worth knowing, which the model keeps:

- The deadline moves by one second per sample, whatever the clock says. After a stall,
  consecutive frames each record a sample until the deadline catches up, so samples
  can be less than a second apart (`Scenarios.CatchUpSamplesAreCloserThanOneSecond`
  gives two samples 0.05 s apart). A missed deadline is not skipped. Its sample is
  taken late, one per later frame, with that frame's real elapsed time. In every run,
  sample k is at least k + 1 seconds after the start, and each frame records at most
  one sample. Suppose the first frame comes at most a second after the start, every
  frame has a face whose labels all have colours, and the clock rises by at most a
  second from frame to frame. Then after the frame read at T seconds the sampler holds
  floor(T) samples (`CaptureLoop.LoopKeepsCadence`).
- The label strings, not ordinals, are passed to the plot, and the model hands off the
  strings.
- When the camera fails to open, `main` returns before any cleanup. The model's session
  is then only the error message: no release, no window teardown, no plot.
- An exception raised inside `draw_emotion_info` is caught by main's handler, like a
  detector error. The frame keeps what was drawn before the exception, is still shown,
  and records no sample.

## Model

| member | source | states |
|---|---|---|
| `Annotator.DominantIndex` | face_square.py:24 | The chosen entry's confidence is at least every other one, and every earlier entry's confidence is strictly smaller: the first maximal entry in iteration order. |
| `Annotator.DominantIsUnique` | face_square.py:24 | An index is the first maximal entry if and only if it is the dominant index, so the selection is fully determined. |
| `Annotator.DominantIsStrictMaximum` | face_square.py:24 | When all confidences are distinct, the dominant entry's confidence is strictly above every other entry's. |
| `Annotator.Rows` | face_square.py:32-33 | n entries give exactly n list rows. Row i shows entry i's label and confidence at (0, 35*i + 30), in that entry's own colour. |
| `Annotator.ColouredPrefix` | face_square.py:32-33 | Where the row loop stops: every earlier entry has a colour, and the entry at that index (if any) has none. |
| `Annotator.EmotionInfo` | face_square.py:20-33 | The calls `draw_emotion_info` makes and the exception it raises. No exception is raised if and only if the mapping is non-empty and every label has a colour. There are at most 2 + n calls, and exactly 2 + n when nothing is raised. |
| `Annotator.DrawEmotionInfo` | face_square.py:20-33 | Appends to the frame exactly the calls of `EmotionInfo`, in order, and returns the exception that specification says is raised. |
| `Annotator.DrawErrorMessage` | face_square.py:35-37 | Appends one red text call with the message at (10, 30) to the frame. |
| `Annotator.Frame.DrawRectangle` | face_square.py:28 | Appends one rectangle call to the frame's calls. |
| `Annotator.Frame.PutText` | face_square.py:29 | Appends one text call to the frame's calls. |
| `Annotator.EmotionInfoLayout` | face_square.py:22-33 | Applies when the mapping is non-empty and its dominant label has a colour. First the box from (x, y) to (x+w, y+h) in the dominant colour. Then the dominant label and confidence at (x, y-10) in the same colour. Then one row per entry up to the first entry without a colour, in iteration order. That entry, if any, is the KeyError raised. |
| `Annotator.RowsStackDownwards` | face_square.py:32-33 | For a fully coloured mapping, there are 2 + n calls. Every row is a text at x = 0, and each row's y is strictly greater than the row before. |
| `Annotator.EmotionInfoFailsEarly` | face_square.py:24-28 | An empty mapping draws nothing and raises ValueError. A dominant label without a colour draws nothing and raises KeyError for that label. |
| `Trend.Initial` | face_square.py:78-82 | Both lists start empty and the first deadline is start + 1, which satisfies the consistency invariant. |
| `Trend.Sample` | face_square.py:101-106 | One sampling step. When no sample is due the state is unchanged. When one is due, each list gains exactly one entry after its unchanged old entries, the new time is the elapsed time `now - start`, and the deadline rises. |
| `Trend.SampleKeepsConsistent` | face_square.py:101-106 | A sampling step keeps the invariant: equal list lengths, deadline = start + 1 + the number of samples, and sample k at least k + 1 seconds after the start. |
| `Trend.SampleAppendsOneOrNothing` | face_square.py:96-106 | A step changes the state if and only if a face was annotated, trend mode is on, the clock has reached the deadline, and the mapping is non-empty. When it does, each list grows by exactly one entry and keeps its earlier entries. The new entries are the time elapsed since the start and the dominant label. The deadline rises by exactly 1. |
| `Trend.SampleKeepsUp` | face_square.py:101-106 | Suppose floor(prev - start) samples have been taken, and a face frame in trend mode reads the clock at most a second after prev. Then the sampler holds floor(now - start) samples. |
| `Trend.Sampler.constructor` | face_square.py:78-82 | A new sampler has empty lists, deadline start + 1, and the given start time and trend mode. |
| `Trend.Sampler.Step` | face_square.py:101-106 | Keeps the sampler invariant. The new state is `Sample` of the old one. |
| `CaptureLoop.ColoursAreTheSevenEmotions` | face_square.py:56-64 | The colour map `Colors` (the constant `COLORS`, with the same seven BGR triples) has exactly the seven emotion labels as keys. |
| `CaptureLoop.QuitKeyReadsLowByte` | face_square.py:117 | The quit test `QuitKey` looks only at the low byte of the key code. The code of 'q' quits, and -1 (no key pressed) does not. |
| `CaptureLoop.ProcessFrame` | face_square.py:94-111 | One read frame's `try` block: the sampler state after it, the drawing calls and what is printed. At most one line is printed. Nothing is printed if and only if the detector answered and the frame had no face or its face was annotated without an exception. A frame that does not read the clock leaves the sampler unchanged. A detector exception draws nothing. |
| `CaptureLoop.SevenEmotionsAnnotateFully` | face_square.py:56-64 | Every one of the seven classifier labels has a colour. So a non-empty mapping over these labels is annotated in full: 2 + n calls, and no exception. |
| `CaptureLoop.HandleFrame` | face_square.py:94-111 | Models the `try` block for one read frame. The drawing calls, the printed exception and the new sampler state are exactly those of `ProcessFrame`, and the sampler invariant is kept. |
| `CaptureLoop.Run` | face_square.py:72-125 | Returns exactly the effects of `Session`. That covers the camera check, the loop over frame events, release, window teardown, and the trend hand-off in trend mode. |
| `CaptureLoop.ProcessFrameAppendsAtMostOne` | face_square.py:94-111 | A frame either leaves the sampler unchanged, or appends one sample at its own clock reading and moves the deadline by 1. The second case needs a frame with a face, in trend mode. Detector errors and no-face frames change nothing. |
| `CaptureLoop.Loop` | face_square.py:84-118 | The loop over the frame events: for each read frame, what `ProcessFrame` prints, then the frame shown; it stops after a failed read (with its error line) or after the frame with the quit key. It carries no contract of its own: `LoopExitsAtFirstStop`, `LoopShowsEachFrame`, `LoopKeepsConsistent` and the lemmas below state what it does. |
| `CaptureLoop.Teardown` | face_square.py:120-125 | After the loop: release, then window close, then, in trend mode only, the plot of the two lists. Two effects, or three in trend mode. |
| `CaptureLoop.Session` | face_square.py:72-125 | A whole run. When the camera does not open it is the one error line. Otherwise the loop's effects come first. |
| `CaptureLoop.LoopKeepsConsistent` | face_square.py:84-118 | Every iteration keeps the sampler invariant: lists in lockstep, deadline = start + 1 + the number of samples, and sample k at least k + 1 seconds in. |
| `CaptureLoop.FirstStop` | face_square.py:86-89 | Gives the first iteration that is a failed read or a quit key; no earlier iteration is either. |
| `CaptureLoop.LoopExitsAtFirstStop` | face_square.py:84-118 | The loop exits if and only if some iteration is a failed read or a quit key. It exits at the first such iteration, and later events have no influence. |
| `CaptureLoop.LoopAppendsAtMostOnePerFace` | face_square.py:96-106 | The loop only appends: recorded samples are never rewritten. It appends at most one sample per frame the loop reads that has a face. (That missed deadlines are sampled late, by later frames, is shown by `Scenarios.CatchUpSamplesAreCloserThanOneSecond`.) |
| `CaptureLoop.LoopWithoutSamplingKeepsState` | face_square.py:102-108 | With trend mode off, or with no face in any frame the loop reads before it exits, the lists and the deadline never change. |
| `CaptureLoop.LoopStampsNondecreasing` | face_square.py:101-106 | If the clock readings the loop takes before it exits never go backwards, the recorded elapsed times never decrease. Only frames whose face was annotated without an exception read the clock. |
| `CaptureLoop.LoopKeepsCadence` | face_square.py:101-106 | Applies in trend mode when every frame has a fully coloured face and the clock rises by at most one second per frame. If the sampler holds floor(prev - start) samples before the loop, it holds floor(T - start) after it, where T is the last reading taken. |
| `CaptureLoop.SteadyFrameKeepsUp` | face_square.py:96-106 | One such frame keeps the sampler consistent, and the number of samples becomes floor(now - start). |
| `CaptureLoop.LastClockAtQuit` | face_square.py:117-118 | When the loop quits, the last clock reading is the one taken by the frame it quits on. |
| `CaptureLoop.SteadySessionPlotsEverySecond` | face_square.py:101-125 | A steady run in trend mode that ends with the quit key hands the plot floor(T) samples, where T is the time elapsed at the last frame. |
| `CaptureLoop.SteadyFacesAreRead` | face_square.py:86-89 | Every frame of a steady run is read successfully. |
| `CaptureLoop.LoopShowsEachFrame` | face_square.py:113-114 | Inside the loop, each frame read before the exit is shown exactly once, whatever the detector did. Nothing is released, closed or plotted inside the loop. |
| `CaptureLoop.TeardownCounts` | face_square.py:120-125 | The teardown has one release and one window close. It has one plot if and only if trend mode is on. |
| `CaptureLoop.SessionTearsDownOnce` | face_square.py:73-125 | If the loop exits, the run releases the camera and closes the windows exactly once; if it does not exit, never. It plots exactly once when it exits in trend mode, and shows every frame read. If the camera does not open, nothing is shown, released or plotted. |
| `CaptureLoop.SessionHandsOffTrend` | face_square.py:120-125 | After an exit, the run ends with release, then window close, then (in trend mode only) the plot. The plot receives two lists of equal length. Time k is at least k + 1. If the clock readings taken before the exit never go backwards, the times are non-decreasing. |
| `Scenarios.MostlyHappyIsBoxedInGreen` | face_square.py:24-33 | With happy at 0.9 and sad at 0.1, the box is green and the label reads happy with 0.9. The neutral row sits at (0, 240) in white. |
| `Scenarios.SteadyThreeSecondRun` | face_square.py:101-106 | Frames every half second for three seconds, in trend mode, hand the plot the samples 1, 2, 3, all happy. |
| `Scenarios.CatchUpSamplesAreCloserThanOneSecond` | face_square.py:101-106 | After the clock jumps from 0.5 to 3.2, the frames at 3.2 and 3.25 both record samples, so samples can be less than a second apart. |

## Left out

- Camera capture, `imshow`, `waitKey` and `destroyAllWindows` are device and UI I/O. They are inputs (the frame events) or effects (`Show`, `Release`, `DestroyWindows`).
- `initialize_face_detector`, `initialize_emotion_detector`, FER inference and the YuNet `setInputSize` call are foreign pre-trained models. The detector's answer is an input. The YuNet detector is only ever resized and does nothing the model could observe.
- `plot_emotion_trend` is rendering and file output. It is modelled only as the `PlotTrend` effect carrying the two lists. The chart layout, the `yticks` labels and `emotion_trend.png` are not modelled.
- Pixels, fonts, text scale and line thickness are not modelled, nor the `:.2f` formatting of confidences. A text call carries the emotion and its confidence as a real.
- `time.time()` is a real-valued input. Floating-point rounding of the clock and of `current_time - start_time` is not modelled.
- argparse and the weights path construction are not modelled.
- `ConsoleError` stands for `print(f"Error: {e}")`. The printed text of the exception is not modelled, only which exception it is.
- The `frame.shape` unpacking, the `setInputSize` call, `imshow` and `waitKey` sit outside the loop's `try` block. An exception there would end `main` without `release` and `destroyAllWindows`. This path is not modelled, and neither is the missing-weights error.
- The loop runs over a finite list of events. A run that never stops is seen only through its finite prefixes.
- `Annotator.DominantIndex`: a Python dict has distinct keys. The model's mapping is a sequence of pairs, and no proof needs its labels to be distinct. The dominant confidence is the chosen entry's own, which equals `emotions[dominant_emotion]` for distinct keys.
