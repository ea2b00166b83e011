/**
 * The ABS page of the company presentation: the same four sub-flows as the
 * stand-alone ABS page, with a screenshot of the page stored in
 * `sessionStorage` at the end of each of the first three explanation phases,
 * the drawing cleared between phases, and a "Weiter" button that leads on to
 * the advertising page. Awaited steps of a handler are taken as one event;
 * the outcome of each screenshot is a parameter (`None` when rendering or
 * storing the image failed).
 */
module FirmenAbsPage {
  import opened Wrappers
  import opened PresentationMode
  import opened AbsPage

  const NextRoute: string := "/firmenvorstellung/pages/werbung"

  /** The `sessionStorage` key of the `i`-th screenshot the page takes. */
  function ShotName(i: nat): string {
    if i == 0 then "absScreenshot1" else if i == 1 then "absScreenshot2" else "absScreenshot3"
  }

  /**
   * `takeScreenshot`: a captured image is stored under `name`; a failure is
   * caught and leaves the storage as it was.
   */
  function StoreScreenshot(session: map<string, string>, name: string, capture: Option<string>): (r: map<string, string>)
    ensures capture.Some? ==> name in r && r[name] == capture.value
    ensures capture.None? ==> r == session
    ensures forall k :: k != name ==> (k in r <==> k in session) && (k in r ==> r[k] == session[k])
  {
    if capture.Some? then session[name := capture.value] else session
  }

  class Page {
    var mode: Mode
    var drawingPaths: seq<string>
    var showAnalyse: bool
    var showBeratung: bool
    var showService: bool
    var showWeiterButton: bool
    /** Pending timers that show the "Weiter" button. */
    var weiterTimers: nat
    var session: map<string, string>
    /** The screenshots taken so far, by storage key, whether or not they were stored. */
    var shots: seq<string>
    /** The routes pushed to the router. */
    var navigations: seq<string>

    function Current(): Phase
      reads this
    {
      Rendered(showAnalyse, showBeratung, showService)
    }

    /** `isDrawingActive`: the drawing layer takes input in every mode but the laser. */
    predicate DrawingActive()
      reads this
    {
      mode != Laser
    }

    /**
     * The phases are entered in order; the button and its timers belong to the
     * service phase; one screenshot is taken per finished explanation phase
     * and per "Weiter" click, under the key of its place in that order, and
     * every navigation goes to the advertising page.
     */
    predicate Valid()
      reads this
    {
      (showBeratung ==> showAnalyse) && (showService ==> showBeratung) &&
      (showWeiterButton || weiterTimers > 0 || |navigations| > 0 ==> showService) &&
      |shots| == (if showBeratung then 1 else 0) + (if showService then 1 else 0) + |navigations| &&
      (forall i :: 0 <= i < |shots| ==> shots[i] == ShotName(i)) &&
      (forall i :: 0 <= i < |navigations| ==> navigations[i] == NextRoute)
    }

    constructor (session: map<string, string>)
      ensures Valid()
      ensures mode == Draw && drawingPaths == [] && Current() == FlowPhase
      ensures !showWeiterButton && weiterTimers == 0
      ensures this.session == session && shots == [] && navigations == []
    {
      mode := Draw;
      drawingPaths := [];
      showAnalyse := false;
      showBeratung := false;
      showService := false;
      showWeiterButton := false;
      weiterTimers := 0;
      this.session := session;
      shots := [];
      navigations := [];
    }

    /** `handleFlowDone`. */
    method FlowDone()
      requires Valid() && Current() == FlowPhase
      modifies this
      ensures Valid()
      ensures Current() == AnalysePhase
      ensures drawingPaths == old(drawingPaths) && session == old(session) && shots == old(shots)
    {
      showAnalyse := true;
    }

    /**
     * `handleAnalyseDone`: the first screenshot, with the drawing on it, then
     * the drawing is cleared and the advice phase begins, whether or not the
     * screenshot succeeded.
     */
    method AnalyseDone(capture: Option<string>)
      requires Valid() && Current() == AnalysePhase
      modifies this
      ensures Valid()
      ensures Current() == BeratungPhase && drawingPaths == []
      ensures session == StoreScreenshot(old(session), "absScreenshot1", capture)
      ensures shots == old(shots) + ["absScreenshot1"] && navigations == old(navigations)
    {
      session := StoreScreenshot(session, "absScreenshot1", capture);
      shots := shots + ["absScreenshot1"];
      drawingPaths := [];
      showBeratung := true;
    }

    /** `handleBeratungDone`: the second screenshot, the drawing cleared, the service phase. */
    method BeratungDone(capture: Option<string>)
      requires Valid() && Current() == BeratungPhase
      modifies this
      ensures Valid()
      ensures Current() == ServicePhase && drawingPaths == []
      ensures session == StoreScreenshot(old(session), "absScreenshot2", capture)
      ensures shots == old(shots) + ["absScreenshot2"] && navigations == old(navigations)
    {
      session := StoreScreenshot(session, "absScreenshot2", capture);
      shots := shots + ["absScreenshot2"];
      drawingPaths := [];
      showService := true;
    }

    /** `handleServiceDone`: the button is shown by a timer. */
    method ServiceDone()
      requires Valid() && Current() == ServicePhase
      modifies this
      ensures Valid()
      ensures weiterTimers == old(weiterTimers) + 1 && showWeiterButton == old(showWeiterButton)
      ensures Current() == ServicePhase && session == old(session) && shots == old(shots)
    {
      weiterTimers := weiterTimers + 1;
    }

    method WeiterTimer()
      requires Valid() && weiterTimers > 0
      modifies this
      ensures Valid()
      ensures showWeiterButton && weiterTimers == old(weiterTimers) - 1
      ensures Current() == old(Current()) && session == old(session) && shots == old(shots)
    {
      showWeiterButton := true;
      weiterTimers := weiterTimers - 1;
    }

    /**
     * `handleWeiter`: the button disappears, the third screenshot is taken
     * (with the drawing, which is kept) and the router moves on, also when
     * the screenshot failed.
     */
    method Weiter(capture: Option<string>)
      requires Valid() && showWeiterButton
      modifies this
      ensures Valid()
      ensures !showWeiterButton && drawingPaths == old(drawingPaths)
      ensures session == StoreScreenshot(old(session), "absScreenshot3", capture)
      ensures shots == old(shots) + ["absScreenshot3"]
      ensures navigations == old(navigations) + [NextRoute]
    {
      showWeiterButton := false;
      session := StoreScreenshot(session, "absScreenshot3", capture);
      shots := shots + ["absScreenshot3"];
      navigations := navigations + [NextRoute];
    }

    /** The drawing layer replaces the paths. */
    method SetPaths(paths: seq<string>)
      requires Valid()
      modifies this
      ensures Valid()
      ensures drawingPaths == paths && Current() == old(Current()) && session == old(session)
    {
      drawingPaths := paths;
    }

    method SetMode(m: Mode)
      requires Valid()
      modifies this
      ensures Valid()
      ensures mode == m && drawingPaths == old(drawingPaths) && Current() == old(Current())
    {
      mode := m;
    }
  }

  /**
   * Once the page has navigated on, the three screenshots were taken in
   * phase order and the first two were taken before the service phase.
   */
  lemma ShotsInOrder(p: Page)
    requires p.Valid() && |p.navigations| > 0
    ensures |p.shots| >= 3 && p.shots[..3] == ["absScreenshot1", "absScreenshot2", "absScreenshot3"]
  {
    assert p.shots[0] == ShotName(0) && p.shots[1] == ShotName(1) && p.shots[2] == ShotName(2);
  }
}
