/**
 * The "A - Analyse" explanation of the company presentation: the same phases
 * as in the ABS pages, except that the second click leaves the advantage
 * text on screen (it is part of the screenshot taken next). Timers are
 * events.
 */
module FirmenAnalyseErklaerung {

  class Analyse {
    var zoom: bool
    var blink1: bool
    var showVorteil: bool
    var blink2: bool
    var zoomTimer: bool
    var blink1Timer: bool
    var blink2Timers: nat
    const hasOnDone: bool
    var doneCalls: nat

    /**
     * The phases come in order; the text, once shown, stays; the second
     * blinking and its timer exist only after the text, and `onDone` is called
     * only during the second blinking, so never before the text was shown.
     */
    predicate Valid()
      reads this
    {
      (zoomTimer ==> !zoom) &&
      (!zoom ==> !blink1 && !blink1Timer && !showVorteil && !blink2 && blink2Timers == 0) &&
      (blink1Timer ==> !blink1 && !showVorteil) &&
      (blink1 ==> !blink1Timer && !showVorteil) &&
      (showVorteil ==> !blink1 && !blink1Timer && (blink2 || blink2Timers == 1)) &&
      (blink2 || blink2Timers > 0 ==> showVorteil) &&
      blink2Timers <= 1 &&
      (blink2 ==> blink2Timers == 0) &&
      (doneCalls > 0 ==> blink2 && showVorteil && hasOnDone)
    }

    constructor (hasOnDone: bool)
      ensures Valid()
      ensures !zoom && !blink1 && !showVorteil && !blink2 && zoomTimer && doneCalls == 0
    {
      zoom := false;
      blink1 := false;
      showVorteil := false;
      blink2 := false;
      zoomTimer := true;
      blink1Timer := false;
      blink2Timers := 0;
      this.hasOnDone := hasOnDone;
      doneCalls := 0;
    }

    predicate Clickable()
      reads this
    {
      blink1 || blink2
    }

    /** The advantage overlay is rendered exactly while `showVorteil` holds. */
    predicate VorteilOverlayShown()
      reads this
    {
      showVorteil
    }

    method ZoomTimer()
      requires Valid() && zoomTimer
      modifies this
      ensures Valid()
      ensures zoom && !zoomTimer && blink1Timer && !blink1 && doneCalls == old(doneCalls)
    {
      zoom := true;
      zoomTimer := false;
      blink1Timer := true;
    }

    method Blink1Timer()
      requires Valid() && blink1Timer
      modifies this
      ensures Valid()
      ensures blink1 && !blink1Timer && Clickable() && doneCalls == old(doneCalls)
    {
      blink1 := true;
      blink1Timer := false;
    }

    method Blink2Timer()
      requires Valid() && blink2Timers > 0
      modifies this
      ensures Valid()
      ensures blink2 && blink2Timers == old(blink2Timers) - 1 && Clickable() && doneCalls == old(doneCalls)
    {
      blink2 := true;
      blink2Timers := blink2Timers - 1;
    }

    /** `handleClick`: the first phase shows the text; the second calls `onDone` and keeps the text. */
    method Click()
      requires Valid() && Clickable()
      modifies this
      ensures Valid()
      ensures old(blink1) && !old(showVorteil) ==>
        !blink1 && showVorteil && blink2Timers == old(blink2Timers) + 1 && doneCalls == old(doneCalls)
      ensures !(old(blink1) && !old(showVorteil)) ==>
        old(blink2) && showVorteil && doneCalls == old(doneCalls) + (if hasOnDone then 1 else 0)
      ensures doneCalls > old(doneCalls) ==> VorteilOverlayShown()
    {
      if blink1 && !showVorteil {
        blink1 := false;
        showVorteil := true;
        blink2Timers := blink2Timers + 1;
        return;
      }
      if blink2 {
        if hasOnDone {
          doneCalls := doneCalls + 1;
        }
      }
    }
  }
}
