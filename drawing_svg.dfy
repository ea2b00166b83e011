/**
 * The stylus drawing layer: strokes are SVG path texts built point by point,
 * and the eraser reads the points back out of those texts to decide which
 * strokes to remove.
 */
module DrawingSvg {
  import opened Wrappers
  import opened Decimal
  import opened JsText
  import opened SeqFilter
  import opened PresentationMode

  /** A point in the drawing's coordinate space. */
  datatype Point = Point(x: int, y: int)

  /** The fields of a pointer event the layer looks at. */
  datatype PointerInput = PointerInput(pointerType: string, pressure: real)

  /** A stylus is a pen, or a touch that reports pressure; a finger touch reports none. */
  predicate IsStylusPointer(e: PointerInput) {
    e.pointerType == "pen" || (e.pointerType == "touch" && e.pressure > 0.0)
  }

  /** The squared distance, so that `distance(a, b) < r` becomes `DistSq(a, b) < r * r`. */
  function DistSq(a: Point, b: Point): nat {
    (a.x - b.x) * (a.x - b.x) + (a.y - b.y) * (a.y - b.y)
  }

  /** Moves shorter than this are ignored. */
  const MinMove: nat := 2
  /** The eraser's reach. */
  const EraseRadius: nat := 12

  /** `${x} ${y}`. */
  function Coords(p: Point): string {
    IntToString(p.x) + " " + IntToString(p.y)
  }

  /** The coordinates neither start nor end with white space and hold no `L` or `M`. */
  lemma CoordsChars(p: Point)
    ensures var s := Coords(p);
      |s| > 0 && !IsSpace(s[0]) && !IsSpace(s[|s| - 1]) && 'L' !in s && 'M' !in s
  {
    var sx, sy := IntToString(p.x), IntToString(p.y);
    IntToStringChars(p.x);
    IntToStringChars(p.y);
    assert !IsSpace(sx[0]) by { assert IsDigit(sx[0]) || sx[0] == '-'; }
    assert !IsSpace(sy[|sy| - 1]) by { assert IsDigit(sy[|sy| - 1]); }
    var s := sx + " " + sy;
    assert forall i :: 0 <= i < |s| ==> s[i] == ' ' || s[i] == '-' || IsDigit(s[i]);
  }

  /** The path text of a stroke with the given points: a move to the first, a line to each further one. */
  function Encode(points: seq<Point>): (d: string)
    requires |points| > 0
  {
    if |points| == 1 then "M " + Coords(points[0])
    else Encode(points[..|points| - 1]) + " L " + Coords(points[|points| - 1])
  }

  /** One point read back by the eraser; `None` stands for NaN. */
  datatype ParsedPoint = ParsedPoint(x: Option<int>, y: Option<int>)

  /** One piece between two `L`s: the first `M` removed, trimmed, split at spaces, the first two numbers read. */
  function ParseChunk(chunk: string): ParsedPoint {
    var parts := SplitOn(Trim(RemoveFirst(chunk, 'M')), ' ');
    ParsedPoint(JsNumber(parts[0]), if |parts| >= 2 then JsNumber(parts[1]) else None)
  }

  /** The points the eraser reads out of a path text. */
  function ParsePath(d: string): (ps: seq<ParsedPoint>)
    ensures |ps| == |SplitOn(d, 'L')|
  {
    var chunks := SplitOn(d, 'L');
    seq(|chunks|, i requires 0 <= i < |chunks| => ParseChunk(chunks[i]))
  }

  /** A NaN coordinate is never near anything. */
  predicate Near(q: ParsedPoint, p: Point) {
    q.x.Some? && q.y.Some? && DistSq(Point(q.x.value, q.y.value), p) < EraseRadius * EraseRadius
  }

  /** Whether some point of the path lies within the eraser's reach of `p`. */
  predicate IsPointNearPath(p: Point, d: string) {
    exists i :: 0 <= i < |ParsePath(d)| && Near(ParsePath(d)[i], p)
  }

  /** The forms a piece of an encoded stroke takes: after `M` or a space, optionally followed by a space. */
  predicate ChunkFor(chunk: string, p: Point) {
    chunk == "M " + Coords(p) || chunk == "M " + Coords(p) + " " ||
    chunk == " " + Coords(p) || chunk == " " + Coords(p) + " "
  }

  /** Each piece reads back as its point. */
  lemma ParseChunkFor(chunk: string, p: Point)
    requires ChunkFor(chunk, p)
    ensures ParseChunk(chunk) == ParsedPoint(Some(p.x), Some(p.y))
  {
    var c := Coords(p);
    CoordsChars(p);
    ChunkTrims(chunk, c);
    CoordsSplit(p);
    IntToStringRoundTrip(p.x);
    IntToStringRoundTrip(p.y);
  }

  /** Removing the `M` and trimming leaves just the coordinates. */
  lemma ChunkTrims(chunk: string, c: string)
    requires |c| > 0 && !IsSpace(c[0]) && !IsSpace(c[|c| - 1]) && 'M' !in c
    requires chunk == "M " + c || chunk == "M " + c + " " || chunk == " " + c || chunk == " " + c + " "
    ensures Trim(RemoveFirst(chunk, 'M')) == c
  {
    var r := RemoveFirst(chunk, 'M');
    if chunk == "M " + c || chunk == "M " + c + " " {
      assert chunk[0] == 'M';
      assert r == chunk[1..];
    } else {
      assert 'M' !in chunk by {
        assert forall i :: 1 <= i < |chunk| && i <= |c| ==> chunk[i] == c[i - 1];
      }
    }
    assert r == " " + c || r == " " + c + " ";
    TrimPadded(c);
  }

  /** The coordinates split at their one space into the two numbers. */
  lemma CoordsSplit(p: Point)
    ensures SplitOn(Coords(p), ' ') == [IntToString(p.x), IntToString(p.y)]
  {
    var sx, sy := IntToString(p.x), IntToString(p.y);
    IntToStringChars(p.x);
    IntToStringChars(p.y);
    assert Coords(p) == sx + [' '] + sy;
    assert ' ' !in sx by {
      assert forall i :: 0 <= i < |sx| ==> IsDigit(sx[i]) || sx[i] == '-';
    }
    assert ' ' !in sy by {
      assert forall i :: 0 <= i < |sy| ==> IsDigit(sy[i]) || sy[i] == '-';
    }
    SplitAtFirst(sx, ' ', sy);
  }

  /** The pieces of an encoded stroke: one per point, the last without a trailing space. */
  lemma {:induction false} EncodeChunks(points: seq<Point>)
    requires |points| > 0
    ensures |SplitOn(Encode(points), 'L')| == |points|
    ensures forall i :: 0 <= i < |points| ==> ChunkFor(SplitOn(Encode(points), 'L')[i], points[i])
    ensures Last(SplitOn(Encode(points), 'L')) == (if |points| == 1 then "M " else " ") + Coords(Last(points))
  {
    var n := |points|;
    if n == 1 {
      var c := "M " + Coords(points[0]);
      CoordsChars(points[0]);
      assert 'L' !in c;
      assert SplitOn(c, 'L') == [c];
    } else {
      var init, p := points[..n - 1], points[n - 1];
      assert points == init + [p];
      EncodeChunks(init);
      var d := Encode(init);
      EncodeSnoc(points);
      var t := " " + Coords(p);
      CoordsChars(p);
      assert 'L' !in t by { assert t[1..] == Coords(p); }
      SplitSnoc(d, " ", 'L', t);
      ChunksExtend(SplitOn(d, 'L'), init, p);
    }
  }

  /** The text of a stroke is the text of all but its last point, a space, an `L`, and the last piece. */
  lemma EncodeSnoc(points: seq<Point>)
    requires |points| > 1
    ensures Encode(points) == Encode(points[..|points| - 1]) + " " + ['L'] + (" " + Coords(points[|points| - 1]))
  {
    var d, c := Encode(points[..|points| - 1]), Coords(points[|points| - 1]);
    assert Encode(points) == d + " L " + c;
    SeparatorSplit(d, c);
  }

  lemma SeparatorSplit(d: string, c: string)
    ensures d + " L " + c == d + " " + ['L'] + (" " + c)
  {
  }

  /** Adding a point turns the old last piece into an inner one and adds a piece for the point. */
  lemma ChunksExtend(chunks: seq<string>, init: seq<Point>, p: Point)
    requires |chunks| == |init| > 0
    requires forall i :: 0 <= i < |init| ==> ChunkFor(chunks[i], init[i])
    requires Last(chunks) == "M " + Coords(Last(init)) || Last(chunks) == " " + Coords(Last(init))
    ensures var next := Front(chunks) + [Last(chunks) + " "] + [" " + Coords(p)];
      |next| == |init| + 1 &&
      (forall i :: 0 <= i < |init| + 1 ==> ChunkFor(next[i], (init + [p])[i])) &&
      Last(next) == " " + Coords(p)
  {
    var next := Front(chunks) + [Last(chunks) + " "] + [" " + Coords(p)];
    var points := init + [p];
    var n := |init|;
    forall i | 0 <= i < n + 1
      ensures ChunkFor(next[i], points[i])
    {
      if i < n - 1 {
        assert next[i] == chunks[i] && points[i] == init[i];
      } else if i == n - 1 {
        assert next[i] == Last(chunks) + " " && points[i] == Last(init);
      } else {
        assert next[i] == " " + Coords(p) && points[i] == p;
      }
    }
  }

  /** Pieces of the encoded forms read back as their points, in order. */
  lemma ParseChunks(chunks: seq<string>, points: seq<Point>)
    requires |chunks| == |points|
    requires forall i :: 0 <= i < |points| ==> ChunkFor(chunks[i], points[i])
    ensures seq(|chunks|, i requires 0 <= i < |chunks| => ParseChunk(chunks[i])) ==
      seq(|points|, i requires 0 <= i < |points| => ParsedPoint(Some(points[i].x), Some(points[i].y)))
  {
    forall i | 0 <= i < |points|
      ensures ParseChunk(chunks[i]) == ParsedPoint(Some(points[i].x), Some(points[i].y))
    {
      ParseChunkFor(chunks[i], points[i]);
    }
  }

  /** Reading an encoded stroke gives back exactly its points, in order. */
  lemma ParseEncodeRoundTrip(points: seq<Point>)
    requires |points| > 0
    ensures ParsePath(Encode(points)) == seq(|points|, i requires 0 <= i < |points| => ParsedPoint(Some(points[i].x), Some(points[i].y)))
  {
    EncodeChunks(points);
    ParseChunks(SplitOn(Encode(points), 'L'), points);
  }

  /** On an encoded stroke the eraser's test is exactly "some point of the stroke is within 12 of `p`". */
  lemma NearEncoded(p: Point, points: seq<Point>)
    requires |points| > 0
    ensures IsPointNearPath(p, Encode(points)) <==> exists i :: 0 <= i < |points| && DistSq(points[i], p) < EraseRadius * EraseRadius
  {
    ParseEncodeRoundTrip(points);
    var ps := ParsePath(Encode(points));
    assert |ps| == |points|;
    forall i | 0 <= i < |points|
      ensures Near(ps[i], p) <==> DistSq(points[i], p) < EraseRadius * EraseRadius
    {
      assert ps[i] == ParsedPoint(Some(points[i].x), Some(points[i].y));
      assert Point(ps[i].x.value, ps[i].y.value) == points[i];
    }
  }

  /** A path text some stroke encodes. */
  ghost predicate IsEncodedStroke(d: string) {
    exists points :: |points| > 0 && Encode(points) == d
  }

  /** The eraser's filter: keep a path unless it comes within reach of `p`. */
  function KeepAway(p: Point): string -> bool {
    d => !IsPointNearPath(p, d)
  }

  /** A move counts when it comes from a stylus, a stroke or erasure is under way, and it travelled at least `MinMove`. */
  predicate Accepted(e: PointerInput, last: Option<Point>, p: Point) {
    IsStylusPointer(e) && last.Some? && DistSq(p, last.value) >= MinMove * MinMove
  }

  /** The drawing layer's state: the finished strokes, the stroke in progress and the last accepted point. */
  class DrawingLayer {
    var paths: seq<string>
    var currentPath: Option<string>
    var lastPoint: Option<Point>
    ghost var currentPoints: seq<Point>

    /** Every path, finished or in progress, is the encoding of its points. */
    ghost predicate Valid()
      reads this
    {
      (forall d :: d in paths ==> IsEncodedStroke(d)) &&
      (currentPath.Some? ==> |currentPoints| > 0 && currentPath.value == Encode(currentPoints))
    }

    constructor ()
      ensures Valid()
      ensures paths == [] && currentPath == None && lastPoint == None
    {
      paths := [];
      currentPath := None;
      lastPoint := None;
      currentPoints := [];
    }

    /** `start`: a stylus in draw mode begins a stroke; in erase mode it erases at the point. */
    method Start(e: PointerInput, mode: Mode, p: Point)
      requires Valid()
      modifies this
      ensures Valid()
      ensures !IsStylusPointer(e) || (mode != Draw && mode != Erase) ==>
        paths == old(paths) && currentPath == old(currentPath) && lastPoint == old(lastPoint)
      ensures IsStylusPointer(e) && mode == Draw ==>
        lastPoint == Some(p) && currentPath == Some("M " + Coords(p)) && currentPoints == [p] && paths == old(paths)
      ensures IsStylusPointer(e) && mode == Erase ==>
        lastPoint == Some(p) && currentPath == old(currentPath) && paths == Filter(KeepAway(p), old(paths))
    {
      if !IsStylusPointer(e) {
        return;
      }
      if mode != Draw && mode != Erase {
        return;
      }
      lastPoint := Some(p);
      if mode == Draw {
        currentPath := Some("M " + Coords(p));
        currentPoints := [p];
      }
      if mode == Erase {
        paths := Filter(KeepAway(p), paths);
      }
    }

    /** `move`: a stylus move of at least 2 extends the stroke in draw mode and erases in erase mode. */
    method Move(e: PointerInput, mode: Mode, p: Point)
      requires Valid()
      modifies this
      ensures Valid()
      ensures !Accepted(e, old(lastPoint), p) ==>
        paths == old(paths) && currentPath == old(currentPath) && lastPoint == old(lastPoint)
      ensures Accepted(e, old(lastPoint), p) ==> lastPoint == Some(p)
      ensures Accepted(e, old(lastPoint), p) && mode == Draw ==>
        paths == old(paths) && currentPath == (if old(currentPath).Some? then Some(old(currentPath).value + " L " + Coords(p)) else None)
      ensures Accepted(e, old(lastPoint), p) && mode == Draw && old(currentPath).Some? ==> currentPoints == old(currentPoints) + [p]
      ensures Accepted(e, old(lastPoint), p) && mode == Erase ==>
        currentPath == old(currentPath) && paths == Filter(KeepAway(p), old(paths))
      ensures Accepted(e, old(lastPoint), p) && mode != Draw && mode != Erase ==>
        currentPath == old(currentPath) && paths == old(paths)
    {
      if !IsStylusPointer(e) {
        return;
      }
      if lastPoint.None? {
        return;
      }
      if DistSq(p, lastPoint.value) < MinMove * MinMove {
        return;
      }
      lastPoint := Some(p);
      if mode == Draw {
        match currentPath
        case Some(d) =>
          var extended := currentPoints + [p];
          assert extended[..|extended| - 1] == currentPoints;
          currentPath := Some(d + " L " + Coords(p));
          currentPoints := extended;
        case None =>
          currentPath := None;
      }
      if mode == Erase {
        paths := Filter(KeepAway(p), paths);
      }
    }

    /** `end`: in draw mode the stroke in progress is added after the finished ones; then no stroke is in progress. */
    method End(e: PointerInput, mode: Mode)
      requires Valid()
      modifies this
      ensures Valid()
      ensures !IsStylusPointer(e) ==> paths == old(paths) && currentPath == old(currentPath) && lastPoint == old(lastPoint)
      ensures IsStylusPointer(e) ==> lastPoint == None && currentPath == None
      ensures IsStylusPointer(e) && mode == Draw && old(currentPath).Some? ==> paths == old(paths) + [old(currentPath).value]
      ensures IsStylusPointer(e) && (mode != Draw || old(currentPath).None?) ==> paths == old(paths)
    {
      if !IsStylusPointer(e) {
        return;
      }
      if mode == Draw && currentPath.Some? {
        assert IsEncodedStroke(currentPath.value) by {
          assert Encode(currentPoints) == currentPath.value;
        }
        paths := paths + [currentPath.value];
      }
      lastPoint := None;
      currentPath := None;
    }
  }

  /**
   * Erasing at `p` keeps a finished stroke exactly when none of its points is
   * within reach of `p`, and never adds one.
   */
  lemma EraseKeepsFarStrokes(p: Point, paths: seq<string>, points: seq<Point>)
    requires |points| > 0 && Encode(points) in paths
    ensures Encode(points) in Filter(KeepAway(p), paths) <==>
      forall i :: 0 <= i < |points| ==> DistSq(points[i], p) >= EraseRadius * EraseRadius
  {
    NearEncoded(p, points);
  }

  /** Erasing keeps the surviving strokes in their drawing order. */
  lemma EraseKeepsOrder(p: Point, paths: seq<string>)
    ensures IsSubsequence(Filter(KeepAway(p), paths), paths)
    ensures |Filter(KeepAway(p), paths)| <= |paths|
  {
    FilterIsSubsequence(KeepAway(p), paths);
  }
}
