/**
 * The "A - Analyse" explanation of the ABS presentation: the A zooms in, the
 * B starts blinking, a first click on B shows the advantage text and, two
 * seconds later, B blinks again; a second click hides the text and hands
 * over to the next phase. Timers are events.
 */
module AnalyseErklaerung {

  class Analyse {
    var zoom: bool
    var blink1: bool
    var showVorteil: bool
    var blink2: bool
    /** The mount timer that zooms in. */
    var zoomTimer: bool
    /** The timer the zoom effect starts for the first blinking. */
    var blink1Timer: bool
    /** Timers started by the first click for the second blinking. */
    var blink2Timers: nat
    const hasOnDone: bool
    /** How often `onDone` was called. */
    var doneCalls: nat
    /** Whether the advantage text has ever been shown. */
    ghost var vorteilSeen: bool

    /**
     * The phases come in order: nothing before the zoom, the first blinking
     * only before the text, the second blinking (and its timer) only after
     * the text has been shown, and `onDone` only during the second blinking.
     */
    ghost predicate Valid()
      reads this
    {
      (zoomTimer ==> !zoom) &&
      (!zoom ==> !blink1 && !blink1Timer && !showVorteil && !blink2 && blink2Timers == 0 && !vorteilSeen) &&
      (blink1Timer ==> !blink1 && !vorteilSeen) &&
      (blink1 ==> !blink1Timer && !showVorteil && !vorteilSeen) &&
      (showVorteil ==> vorteilSeen) &&
      (blink2 || blink2Timers > 0 ==> vorteilSeen && !blink1 && !blink1Timer) &&
      blink2Timers <= 1 &&
      (blink2 ==> blink2Timers == 0) &&
      (vorteilSeen ==> !blink1 && !blink1Timer && (blink2 || blink2Timers == 1)) &&
      (doneCalls > 0 ==> blink2 && hasOnDone)
    }

    constructor (hasOnDone: bool)
      ensures Valid()
      ensures !zoom && !blink1 && !showVorteil && !blink2 && zoomTimer && doneCalls == 0
    {
      zoom := false;
      blink1 := false;
      showVorteil := false;
      blink2 := false;
      zoomTimer := true;
      blink1Timer := false;
      blink2Timers := 0;
      this.hasOnDone := hasOnDone;
      doneCalls := 0;
      vorteilSeen := false;
    }

    /** B takes clicks only while it blinks. */
    predicate Clickable()
      reads this
    {
      blink1 || blink2
    }

    /** The zoom timer fires; the zoom effect starts the first blinking's timer. */
    method ZoomTimer()
      requires Valid() && zoomTimer
      modifies this
      ensures Valid()
      ensures zoom && !zoomTimer && blink1Timer && !blink1 && doneCalls == old(doneCalls)
    {
      zoom := true;
      zoomTimer := false;
      blink1Timer := true;
    }

    /** The first blinking starts. */
    method Blink1Timer()
      requires Valid() && blink1Timer
      modifies this
      ensures Valid()
      ensures blink1 && !blink1Timer && Clickable() && doneCalls == old(doneCalls)
    {
      blink1 := true;
      blink1Timer := false;
    }

    /** The second blinking starts. */
    method Blink2Timer()
      requires Valid() && blink2Timers > 0
      modifies this
      ensures Valid()
      ensures blink2 && blink2Timers == old(blink2Timers) - 1 && Clickable() && doneCalls == old(doneCalls)
    {
      blink2 := true;
      blink2Timers := blink2Timers - 1;
    }

    /**
     * `handleClick`. In the first phase it stops the blinking, shows the text
     * and starts the second blinking's timer without calling `onDone`; in the
     * second phase it hides the text and calls `onDone`.
     */
    method Click()
      requires Valid() && Clickable()
      modifies this
      ensures Valid()
      ensures old(blink1) && !old(showVorteil) ==>
        !blink1 && showVorteil && blink2Timers == old(blink2Timers) + 1 && doneCalls == old(doneCalls)
      ensures !(old(blink1) && !old(showVorteil)) ==>
        old(blink2) && !showVorteil && doneCalls == old(doneCalls) + (if hasOnDone then 1 else 0)
      ensures doneCalls > old(doneCalls) ==> vorteilSeen && old(blink2)
    {
      if blink1 && !showVorteil {
        blink1 := false;
        showVorteil := true;
        vorteilSeen := true;
        blink2Timers := blink2Timers + 1;
        return;
      }
      if blink2 {
        showVorteil := false;
        if hasOnDone {
          doneCalls := doneCalls + 1;
        }
      }
    }
  }
}
