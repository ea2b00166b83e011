/** The top bar: the tool buttons with the pen popover, and the forward arrow along the presentation's page chain. */
module TopBar {
  import opened Wrappers
  import opened PresentationMode

  /** The page the forward arrow leads to; pages outside the chain, and its last page, have none. */
  function NextPage(path: string): (next: Option<string>)
    ensures path == "/" <==> next == Some("/pages/kapitalmarkt")
    ensures path == "/pages/kapitalmarkt" <==> next == Some("/pages/lebensplan")
    ensures path == "/pages/lebensplan" <==> next == Some("/pages/abs")
    ensures path == "/pages/abs" <==> next == Some("/pages/werbung")
    ensures path == "/pages/werbung" <==> next == Some("/pages/empfehlung")
    ensures path !in {"/", "/pages/kapitalmarkt", "/pages/lebensplan", "/pages/abs", "/pages/werbung"} <==> next.None?
  {
    if path == "/" then Some("/pages/kapitalmarkt")
    else if path == "/pages/kapitalmarkt" then Some("/pages/lebensplan")
    else if path == "/pages/lebensplan" then Some("/pages/abs")
    else if path == "/pages/abs" then Some("/pages/werbung")
    else if path == "/pages/werbung" then Some("/pages/empfehlung")
    else None
  }

  /** The forward arrow is drawn exactly when there is a next page. */
  predicate ShowsForwardArrow(path: string) {
    NextPage(path).Some?
  }

  /** How many pages of the chain still lie ahead of `path`. */
  function PagesAhead(path: string): nat {
    if path == "/" then 5
    else if path == "/pages/kapitalmarkt" then 4
    else if path == "/pages/lebensplan" then 3
    else if path == "/pages/abs" then 2
    else if path == "/pages/werbung" then 1
    else 0
  }

  /** Following the forward arrow `k` times from `path`; `None` once the chain has ended. */
  function Follow(path: string, k: nat): Option<string>
    decreases k
  {
    if k == 0 then Some(path)
    else match NextPage(path)
      case None => None
      case Some(q) => Follow(q, k - 1)
  }

  /** Each step along the arrow leaves one page fewer ahead. */
  lemma NextPageAdvances(path: string)
    ensures NextPage(path).Some? ==> PagesAhead(NextPage(path).value) + 1 == PagesAhead(path)
  {
  }

  /** The chain has no cycle: from any page, following the arrow more than `PagesAhead` times ends it. */
  lemma {:induction false} FollowEnds(path: string, k: nat)
    requires k > PagesAhead(path)
    ensures Follow(path, k).None?
    decreases k
  {
    NextPageAdvances(path);
    match NextPage(path)
    case None =>
    case Some(q) => FollowEnds(q, k - 1);
  }

  /** In particular six steps always end the chain. */
  lemma ChainAtMostSixSteps(path: string)
    ensures Follow(path, 6).None?
  {
    FollowEnds(path, 6);
  }

  datatype Tool = Pen | Eraser | LaserPointer | NormalMode | Save

  /**
   * The state the top bar's handlers change: the presentation mode (owned by
   * the page), whether the pen popover is open, the pen settings (owned by
   * the pen store) and the save requests sent to the page.
   */
  class Bar {
    var mode: Mode
    var showPenOptions: bool
    var penColor: string
    var penWidth: int
    const hasSave: bool
    var saveRequests: nat

    /** The popover is only ever open while drawing. */
    predicate Valid()
      reads this
    {
      showPenOptions ==> mode == Draw
    }

    constructor (mode: Mode, penColor: string, penWidth: int, hasSave: bool)
      ensures Valid()
      ensures this.mode == mode && !showPenOptions && this.penColor == penColor && this.penWidth == penWidth
      ensures this.hasSave == hasSave && saveRequests == 0
    {
      this.mode := mode;
      showPenOptions := false;
      this.penColor := penColor;
      this.penWidth := penWidth;
      this.hasSave := hasSave;
      saveRequests := 0;
    }

    /** The save tool is rendered only when the page passes a save handler. */
    predicate ToolShown(tool: Tool)
      reads this
    {
      tool != Save || hasSave
    }

    /**
     * A tool click. The pen toggles the popover while drawing and otherwise
     * switches to drawing with the popover closed; the other mode tools
     * switch to their mode and close the popover; save calls the handler.
     */
    method Click(tool: Tool)
      requires Valid() && ToolShown(tool)
      modifies this
      ensures Valid()
      ensures penColor == old(penColor) && penWidth == old(penWidth)
      ensures tool == Pen && old(mode) == Draw ==> mode == Draw && showPenOptions == !old(showPenOptions)
      ensures tool == Pen && old(mode) != Draw ==> mode == Draw && !showPenOptions
      ensures tool == Eraser ==> mode == Erase && !showPenOptions
      ensures tool == LaserPointer ==> mode == Laser && !showPenOptions
      ensures tool == NormalMode ==> mode == Normal && !showPenOptions
      ensures tool == Save ==> mode == old(mode) && showPenOptions == old(showPenOptions)
      ensures saveRequests == old(saveRequests) + (if tool == Save then 1 else 0)
    {
      match tool {
        case Pen =>
          if mode == Draw {
            showPenOptions := !showPenOptions;
          } else {
            mode := Draw;
            showPenOptions := false;
          }
        case Eraser =>
          mode := Erase;
          showPenOptions := false;
        case LaserPointer =>
          mode := Laser;
          showPenOptions := false;
        case NormalMode =>
          mode := Normal;
          showPenOptions := false;
        case Save =>
          saveRequests := saveRequests + 1;
      }
    }

    /** Choosing a colour and width in the popover sets both and closes it. */
    method SelectPenOption(color: string, width: int)
      requires Valid()
      modifies this
      ensures Valid()
      ensures penColor == color && penWidth == width && !showPenOptions
      ensures mode == old(mode) && saveRequests == old(saveRequests)
    {
      penColor := color;
      penWidth := width;
      showPenOptions := false;
    }

    /** Closing the popover changes nothing else. */
    method ClosePenOptions()
      requires Valid()
      modifies this
      ensures Valid()
      ensures !showPenOptions && mode == old(mode) && penColor == old(penColor) && penWidth == old(penWidth)
      ensures saveRequests == old(saveRequests)
    {
      showPenOptions := false;
    }
  }
}
