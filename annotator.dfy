/** The frame annotator of face_square.py: which emotion of a detected face is dominant,
    and which boxes and texts are drawn where, in which colour.  A frame is modelled by
    the list of drawing calls made on it, in the order they are made. */
module Annotator {
  import opened Wrappers

  /** An emotion-to-confidence mapping, in its iteration order. */
  type Scores = seq<(string, real)>

  datatype Point = Point(x: int, y: int)

  /** A colour triple in OpenCV's blue, green, red order. */
  datatype Color = Color(b: int, g: int, r: int)

  /** A face bounding box: top-left corner, width and height. */
  datatype Box = Box(x: int, y: int, w: int, h: int)

  /** What a text call writes: an emotion with its confidence (OpenCV prints it with two
      decimals), or a plain message. */
  datatype Caption = Scored(emotion: string, confidence: real) | Plain(message: string)

  /** One drawing call on a frame. */
  datatype Command =
    | Rectangle(corner: Point, opposite: Point, color: Color)
    | Text(caption: Caption, origin: Point, color: Color)

  /** The exceptions the annotation itself can raise: `max` of an empty mapping, and a
      label the colour map has no entry for. */
  datatype AnnotationError = EmptyScores | MissingColour(key: string)

  /** The drawing calls an annotation makes, and the exception that cut it short, if any. */
  datatype Drawing = Drawing(commands: seq<Command>, error: Option<AnnotationError>)

  /** A frame: the drawing calls made on it so far. */
  class Frame {
    var commands: seq<Command>

    constructor ()
      ensures commands == []
    {
      commands := [];
    }

    /** cv2.rectangle */
    method DrawRectangle(corner: Point, opposite: Point, color: Color)
      modifies this
      ensures commands == old(commands) + [Rectangle(corner, opposite, color)]
    {
      commands := commands + [Rectangle(corner, opposite, color)];
    }

    /** cv2.putText */
    method PutText(caption: Caption, origin: Point, color: Color)
      modifies this
      ensures commands == old(commands) + [Text(caption, origin, color)]
    {
      commands := commands + [Text(caption, origin, color)];
    }
  }

  /** Index k is the entry Python's `max(emotions, key=emotions.get)` picks: its confidence
      is at least every other one, and every earlier entry's is strictly smaller (max keeps
      the first maximal item in iteration order). */
  predicate IsFirstMaximum(emotions: Scores, k: nat) {
    && k < |emotions|
    && (forall j :: 0 <= j < |emotions| ==> emotions[j].1 <= emotions[k].1)
    && (forall j :: 0 <= j < k ==> emotions[j].1 < emotions[k].1)
  }

  /** The dominant emotion's index, computed the way `max` scans the mapping: a later
      entry replaces the best so far only when its confidence is strictly greater. */
  function DominantIndex(emotions: Scores): (k: nat)
    requires |emotions| > 0
    ensures IsFirstMaximum(emotions, k)
  {
    if |emotions| == 1 then 0
    else
      var k := DominantIndex(emotions[..|emotions| - 1]);
      if emotions[|emotions| - 1].1 > emotions[k].1 then |emotions| - 1 else k
  }

  /** The first-maximum characterisation singles out exactly one index. */
  lemma DominantIsUnique(emotions: Scores, k: nat)
    requires |emotions| > 0
    ensures IsFirstMaximum(emotions, k) <==> k == DominantIndex(emotions)
  {
  }

  /** With pairwise distinct confidences, the dominant entry holds the strictly highest one. */
  lemma DominantIsStrictMaximum(emotions: Scores)
    requires |emotions| > 0
    requires forall i, j :: 0 <= i < j < |emotions| ==> emotions[i].1 != emotions[j].1
    ensures var k := DominantIndex(emotions);
      forall j :: 0 <= j < |emotions| && j != k ==> emotions[j].1 < emotions[k].1
  {
    var k := DominantIndex(emotions);
    forall j | 0 <= j < |emotions| && j != k
      ensures emotions[j].1 < emotions[k].1
    {
      if j < k {
        assert emotions[j].1 != emotions[k].1;
      } else {
        assert emotions[k].1 != emotions[j].1;
      }
    }
  }

  /** The vertical position of list row i. */
  function RowY(i: nat): int {
    35 * i + 30
  }

  /** List row i: that entry's label and confidence at the left edge, in its own colour. */
  function Row(emotions: Scores, colors: map<string, Color>, i: nat): Command
    requires i < |emotions| && emotions[i].0 in colors
  {
    Text(Scored(emotions[i].0, emotions[i].1), Point(0, RowY(i)), colors[emotions[i].0])
  }

  /** The list rows of the first n entries, drawn one after another. */
  function Rows(emotions: Scores, colors: map<string, Color>, n: nat): (r: seq<Command>)
    requires n <= |emotions|
    requires forall j :: 0 <= j < n ==> emotions[j].0 in colors
    ensures |r| == n
    ensures forall i :: 0 <= i < n ==> r[i] == Row(emotions, colors, i)
  {
    if n == 0 then [] else Rows(emotions, colors, n - 1) + [Row(emotions, colors, n - 1)]
  }

  /** How many leading entries have a colour: the list loop stops with a KeyError at the
      first entry that has none. */
  function ColouredPrefix(emotions: Scores, colors: map<string, Color>): (n: nat)
    ensures n <= |emotions|
    ensures forall j :: 0 <= j < n ==> emotions[j].0 in colors
    ensures n < |emotions| ==> emotions[n].0 !in colors
  {
    if |emotions| == 0 || emotions[0].0 !in colors then 0
    else 1 + ColouredPrefix(emotions[1..], colors)
  }

  /** The box around the face, from (x, y) to (x + w, y + h). */
  function FaceBox(box: Box, color: Color): Command {
    Rectangle(Point(box.x, box.y), Point(box.x + box.w, box.y + box.h), color)
  }

  /** The dominant emotion's label, ten pixels above the box. */
  function DominantLabel(emotion: string, confidence: real, box: Box, color: Color): Command {
    Text(Scored(emotion, confidence), Point(box.x, box.y - 10), color)
  }

  /** What draw_emotion_info draws, and the exception it raises, if any. */
  function EmotionInfo(emotions: Scores, box: Box, colors: map<string, Color>): (d: Drawing)
    ensures d.error == None <==> |emotions| > 0 && forall j :: 0 <= j < |emotions| ==> emotions[j].0 in colors
    ensures |d.commands| <= 2 + |emotions|
    ensures d.error == None ==> |d.commands| == 2 + |emotions|
  {
    if |emotions| == 0 then Drawing([], Some(EmptyScores))
    else
      var dominant := emotions[DominantIndex(emotions)];
      if dominant.0 !in colors then Drawing([], Some(MissingColour(dominant.0)))
      else
        var color := colors[dominant.0];
        var n := ColouredPrefix(emotions, colors);
        Drawing([FaceBox(box, color), DominantLabel(dominant.0, dominant.1, box, color)]
                  + Rows(emotions, colors, n),
                if n < |emotions| then Some(MissingColour(emotions[n].0)) else None)
  }

  /** The fixed red message drawn when no face is found. */
  function ErrorMessage(message: string): Command {
    Text(Plain(message), Point(10, 30), Color(0, 0, 255))
  }

  /** draw_emotion_info: draws on the frame in place and reports the exception it raised. */
  method DrawEmotionInfo(frame: Frame, emotions: Scores, box: Box, colors: map<string, Color>)
    returns (error: Option<AnnotationError>)
    modifies frame
    ensures frame.commands == old(frame.commands) + EmotionInfo(emotions, box, colors).commands
    ensures error == EmotionInfo(emotions, box, colors).error
  {
    if |emotions| == 0 {
      return Some(EmptyScores);
    }
    var dominant := emotions[DominantIndex(emotions)];
    if dominant.0 !in colors {
      return Some(MissingColour(dominant.0));
    }
    var color := colors[dominant.0];
    frame.DrawRectangle(Point(box.x, box.y), Point(box.x + box.w, box.y + box.h), color);
    frame.PutText(Scored(dominant.0, dominant.1), Point(box.x, box.y - 10), color);
    ghost var head := [FaceBox(box, color), DominantLabel(dominant.0, dominant.1, box, color)];
    var i := 0;
    while i < |emotions|
      invariant 0 <= i <= |emotions|
      invariant forall j :: 0 <= j < i ==> emotions[j].0 in colors
      invariant frame.commands == old(frame.commands) + head + Rows(emotions, colors, i)
    {
      var entry := emotions[i];
      if entry.0 !in colors {
        assert ColouredPrefix(emotions, colors) == i;
        return Some(MissingColour(entry.0));
      }
      frame.PutText(Scored(entry.0, entry.1), Point(0, RowY(i)), colors[entry.0]);
      i := i + 1;
    }
    assert ColouredPrefix(emotions, colors) == |emotions|;
    return None;
  }

  /** draw_error_message */
  method DrawErrorMessage(frame: Frame, message: string)
    modifies frame
    ensures frame.commands == old(frame.commands) + [ErrorMessage(message)]
  {
    frame.PutText(Plain(message), Point(10, 30), Color(0, 0, 255));
  }

  /** Layout when the mapping is not empty and its dominant label has a colour, and the
      first m entries have colours (m = |emotions|, or the first entry without one): the
      box, then the dominant label, then one row per coloured entry in iteration order;
      the annotation fails exactly at the first entry without a colour. */
  lemma {:induction false} EmotionInfoLayout(emotions: Scores, box: Box, colors: map<string, Color>, m: nat)
    requires |emotions| > 0 && emotions[DominantIndex(emotions)].0 in colors
    requires m <= |emotions|
    requires forall j :: 0 <= j < m ==> emotions[j].0 in colors
    requires m < |emotions| ==> emotions[m].0 !in colors
    ensures var d := EmotionInfo(emotions, box, colors);
      var k := DominantIndex(emotions);
      var color := colors[emotions[k].0];
      && |d.commands| == 2 + m
      && d.commands[0] == Rectangle(Point(box.x, box.y), Point(box.x + box.w, box.y + box.h), color)
      && d.commands[1] == Text(Scored(emotions[k].0, emotions[k].1), Point(box.x, box.y - 10), color)
      && (forall i :: 0 <= i < m ==>
            d.commands[2 + i] == Text(Scored(emotions[i].0, emotions[i].1), Point(0, 35 * i + 30), colors[emotions[i].0]))
      && d.error == (if m == |emotions| then None else Some(MissingColour(emotions[m].0)))
  {
    var n := ColouredPrefix(emotions, colors);
    assert n == m;
    var d := EmotionInfo(emotions, box, colors);
    var rows := Rows(emotions, colors, n);
    assert d.commands[2..] == rows;
    forall i | 0 <= i < m
      ensures d.commands[2 + i] == rows[i]
    {
    }
  }

  /** The list rows of a fully coloured mapping are stacked at the left edge, each one
      strictly below the previous. */
  lemma RowsStackDownwards(emotions: Scores, box: Box, colors: map<string, Color>)
    requires |emotions| > 0
    requires forall j :: 0 <= j < |emotions| ==> emotions[j].0 in colors
    ensures var d := EmotionInfo(emotions, box, colors);
      && |d.commands| == 2 + |emotions|
      && (forall i :: 2 <= i < |d.commands| ==> d.commands[i].Text? && d.commands[i].origin.x == 0)
      && (forall i, j :: 2 <= i < j < |d.commands| ==> d.commands[i].origin.y < d.commands[j].origin.y)
  {
    EmotionInfoLayout(emotions, box, colors, |emotions|);
  }

  /** The error paths: an empty mapping, or a dominant label without a colour, draws nothing. */
  lemma EmotionInfoFailsEarly(emotions: Scores, box: Box, colors: map<string, Color>)
    ensures |emotions| == 0 ==> EmotionInfo(emotions, box, colors) == Drawing([], Some(EmptyScores))
    ensures |emotions| > 0 && emotions[DominantIndex(emotions)].0 !in colors ==>
      EmotionInfo(emotions, box, colors) == Drawing([], Some(MissingColour(emotions[DominantIndex(emotions)].0)))
  {
  }
}
