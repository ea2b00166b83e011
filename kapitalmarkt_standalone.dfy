/**
 * The stand-alone capital-market page with its own navigation and canvas:
 * the same eight images revealed click by click, two info texts on the OVB
 * image, the right one only after the left, and a free-hand canvas that draws
 * or erases while the tool mode allows it. Timers are events.
 */
module KapitalmarktStandalone {
  import opened StepCounter
  import opened PresentationMode

  const Images: seq<string> := ["bank.png", "vers.png", "bsk.png", "invest.png", "immo.png", "staat.png", "v.png", "ovb.png"]

  const LastIndex: nat := |Images| - 1

  /** `images.indexOf(name)`: the first position of `name`, or -1. */
  function IndexOf(s: seq<string>, name: string): (r: int)
    ensures -1 <= r < |s|
    ensures r >= 0 ==> s[r] == name && forall k :: 0 <= k < r ==> s[k] != name
    ensures r == -1 <==> name !in s
  {
    if s == [] then -1
    else if s[0] == name then 0
    else
      var r := IndexOf(s[1..], name);
      if r == -1 then -1 else r + 1
  }

  /** The OVB image is the last one, so `isOVB` holds exactly on the last image. */
  lemma OvbIsLast()
    ensures IndexOf(Images, "ovb.png") == LastIndex == 7
    ensures forall k :: 0 <= k < |Images| ==> (Images[k] == "ovb.png" <==> k == LastIndex)
  {
    assert Images[7] == "ovb.png";
    assert forall k :: 0 <= k < 7 ==> Images[k] != "ovb.png";
  }

  /** The stroke width the canvas uses when a stroke starts in `mode`. */
  function StrokeWidth(mode: Mode): (w: nat)
    requires mode == Draw || mode == Erase
    ensures mode == Erase <==> w == 30
    ensures mode == Draw <==> w == 4
  {
    if mode == Erase then 30 else 4
  }

  datatype Point = Point(x: int, y: int)

  class Page {
    var clicked: bool
    var imageIndex: nat
    var mode: Mode
    var showNextTrigger: bool
    var showLeftTrigger: bool
    var showLeftInfo: bool
    var showRightTrigger: bool
    var showRightInfo: bool
    var nextTimers: nat
    var leftTimers: nat
    var rightTimers: nat
    /** The canvas context exists once the canvas has been sized. */
    var hasContext: bool
    /** Whether a stroke is in progress (`drawing.current`). */
    var drawing: bool
    /** The context's `lineWidth` and whether it composites with `destination-out`. */
    var lineWidth: nat
    var erasing: bool
    /** The points of the current canvas path, from `moveTo` on. */
    var path: seq<Point>

    /** `isOVB`: the index has reached the OVB image, which `OvbIsLast` places last. */
    predicate IsOvb()
      reads this
    {
      imageIndex >= LastIndex
    }

    /**
     * The index stays within the images; the info sequence starts only on
     * the OVB image; each of its timers is started once; the right trigger
     * follows the left info and is gone once the right info shows.
     */
    predicate Valid()
      reads this
    {
      imageIndex <= LastIndex &&
      (!clicked ==> imageIndex == 0 && nextTimers == 0 && !hasContext && !drawing) &&
      (imageIndex < LastIndex ==>
        !showLeftTrigger && !showLeftInfo && !showRightTrigger && !showRightInfo && leftTimers == 0 && rightTimers == 0) &&
      leftTimers <= 1 && rightTimers <= 1 &&
      (showLeftTrigger ==> leftTimers == 0) &&
      (showLeftInfo ==> leftTimers == 0 && !showLeftTrigger) &&
      (showRightTrigger || rightTimers > 0 || showRightInfo ==> showLeftInfo) &&
      (showRightTrigger ==> rightTimers == 0) &&
      (showRightInfo ==> !showRightTrigger && rightTimers == 0) &&
      (drawing ==> hasContext && |path| > 0)
    }

    constructor ()
      ensures Valid()
      ensures !clicked && imageIndex == 0 && mode == Normal && showNextTrigger
      ensures !showLeftTrigger && !showLeftInfo && !showRightTrigger && !showRightInfo
      ensures nextTimers == 0 && leftTimers == 0 && rightTimers == 0
      ensures !hasContext && !drawing && path == []
    {
      clicked := false;
      imageIndex := 0;
      mode := Normal;
      showNextTrigger := true;
      showLeftTrigger := false;
      showLeftInfo := false;
      showRightTrigger := false;
      showRightInfo := false;
      nextTimers := 0;
      leftTimers := 0;
      rightTimers := 0;
      hasContext := false;
      drawing := false;
      lineWidth := 4;
      erasing := false;
      path := [];
    }

    /** The images `0..imageIndex` are displayed, in order. */
    function DisplayedImages(): (shown: seq<string>)
      requires Valid()
      reads this
      ensures |shown| == imageIndex + 1 && shown[|shown| - 1] == Images[imageIndex]
      ensures forall k :: 0 <= k < |shown| ==> shown[k] == Images[k]
    {
      Images[..imageIndex + 1]
    }

    predicate NextCircleShown()
      reads this
    {
      clicked && !IsOvb() && showNextTrigger
    }

    predicate LeftTriggerShown()
      reads this
    {
      clicked && IsOvb() && showLeftTrigger && !showLeftInfo
    }

    predicate RightTriggerShown()
      reads this
    {
      clicked && showLeftInfo && showRightTrigger && !showRightInfo
    }

    /** A click on the start circle. */
    method Start()
      requires Valid() && !clicked
      modifies this
      ensures Valid()
      ensures clicked && imageIndex == 0 && !showNextTrigger && nextTimers == old(nextTimers) + 1
      ensures mode == old(mode) && !hasContext
    {
      clicked := true;
      showNextTrigger := false;
      nextTimers := nextTimers + 1;
    }

    /** `handleNext`, followed by the `isOVB` effect when the click reaches the OVB image. */
    method Next()
      requires Valid() && clicked
      modifies this
      ensures Valid()
      ensures imageIndex == Advance(old(imageIndex), LastIndex)
      ensures old(imageIndex) < LastIndex ==> nextTimers == old(nextTimers) + 1 && !showNextTrigger
      ensures old(imageIndex) < LastIndex && imageIndex == LastIndex ==> leftTimers == 1 && IsOvb() && !NextCircleShown()
      ensures old(imageIndex) == LastIndex ==> nextTimers == old(nextTimers) && leftTimers == old(leftTimers)
      ensures mode == old(mode) && path == old(path) && drawing == old(drawing)
    {
      if imageIndex < LastIndex {
        showNextTrigger := false;
        imageIndex := imageIndex + 1;
        nextTimers := nextTimers + 1;
        if imageIndex == LastIndex {
          showNextTrigger := false;
          leftTimers := leftTimers + 1;
        }
      }
    }

    method NextTimer()
      requires Valid() && nextTimers > 0
      modifies this
      ensures Valid()
      ensures showNextTrigger && nextTimers == old(nextTimers) - 1 && imageIndex == old(imageIndex)
      ensures IsOvb() ==> !NextCircleShown()
    {
      showNextTrigger := true;
      nextTimers := nextTimers - 1;
    }

    method LeftTimer()
      requires Valid() && leftTimers > 0
      modifies this
      ensures Valid()
      ensures showLeftTrigger && leftTimers == 0 && LeftTriggerShown()
    {
      showLeftTrigger := true;
      leftTimers := leftTimers - 1;
    }

    /** `handleLeftClick`. */
    method LeftClick()
      requires Valid() && LeftTriggerShown()
      modifies this
      ensures Valid()
      ensures showLeftInfo && !showLeftTrigger && rightTimers == 1 && !RightTriggerShown()
    {
      showLeftInfo := true;
      showLeftTrigger := false;
      rightTimers := rightTimers + 1;
    }

    method RightTimer()
      requires Valid() && rightTimers > 0
      modifies this
      ensures Valid()
      ensures showRightTrigger && rightTimers == 0 && RightTriggerShown()
    {
      showRightTrigger := true;
      rightTimers := rightTimers - 1;
    }

    /** `handleRightClick`. */
    method RightClick()
      requires Valid() && RightTriggerShown()
      modifies this
      ensures Valid()
      ensures showRightInfo && !showRightTrigger && showLeftInfo && !RightTriggerShown()
    {
      showRightInfo := true;
      showRightTrigger := false;
    }

    /** A tool icon in the navigation sets the mode. */
    method SetMode(m: Mode)
      requires Valid()
      modifies this
      ensures Valid()
      ensures mode == m && drawing == old(drawing) && path == old(path) && imageIndex == old(imageIndex)
    {
      mode := m;
    }

    /**
     * The canvas is sized (the timer after the first click, or a window
     * resize): the context is (re)created with width 4 and normal compositing.
     */
    method Resize()
      requires Valid() && clicked
      modifies this
      ensures Valid()
      ensures hasContext && lineWidth == 4 && !erasing
      ensures drawing == old(drawing) && path == old(path) && mode == old(mode)
    {
      hasContext := true;
      lineWidth := 4;
      erasing := false;
    }

    /** `startDrawing`: only in draw or erase mode and with a context; erasing uses the wide stroke. */
    method StartDrawing(p: Point)
      requires Valid()
      modifies this
      ensures Valid()
      ensures (mode == Draw || mode == Erase) && hasContext ==>
        drawing && erasing == (mode == Erase) && lineWidth == StrokeWidth(mode) && path == [p]
      ensures !((mode == Draw || mode == Erase) && hasContext) ==>
        drawing == old(drawing) && path == old(path) && lineWidth == old(lineWidth) && erasing == old(erasing)
      ensures mode == old(mode) && hasContext == old(hasContext)
    {
      if mode != Draw && mode != Erase {
        return;
      }
      if !hasContext {
        return;
      }
      drawing := true;
      erasing := mode == Erase;
      lineWidth := StrokeWidth(mode);
      path := [p];
    }

    /** `draw`: a move extends the path only while a stroke is in progress. */
    method DrawTo(p: Point)
      requires Valid()
      modifies this
      ensures Valid()
      ensures path == (if drawing then old(path) + [p] else old(path))
      ensures drawing == old(drawing) && lineWidth == old(lineWidth) && erasing == old(erasing)
    {
      if !drawing {
        return;
      }
      if !hasContext {
        return;
      }
      path := path + [p];
    }

    /** `stopDrawing`. */
    method StopDrawing()
      requires Valid()
      modifies this
      ensures Valid()
      ensures !drawing && path == old(path)
    {
      drawing := false;
    }
  }
}
