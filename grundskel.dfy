/**
 * The advertising basics scene: once the page starts it, four images wipe in
 * one after another on timers, then the group images, and after a pause the
 * ring that finishes the scene. Each step's effect owns exactly one timer.
 */
module Grundskel {

  const Sequence: seq<string> := ["werbung1.png", "werbung2.png", "werbung3.png", "werbungskreuz.png"]
  const GroupImages: seq<string> := ["201.png", "202.png", "203.png", "204.png", "205.png"]

  /** The last step: one past the group images' step. */
  const LastStep: int := |Sequence| + 1

  class Scene {
    /** -1 until started, then 0 to 5. */
    var step: int
    var start: bool
    var showRing: bool
    /** The timer of the current step's effect is pending. */
    var timerPending: bool
    /** The ring's timer has fired. */
    var ringFired: bool
    var finishCalls: nat

    /**
     * The scene waits at -1 until started; from then on exactly one timer is
     * pending until the ring's timer has fired; the ring then finishes the
     * scene once.
     */
    predicate Valid()
      reads this
    {
      -1 <= step <= LastStep &&
      (step == -1 ==> !start && !ringFired) &&
      (timerPending <==> 0 <= step && !(step == LastStep && ringFired)) &&
      (ringFired ==> step == LastStep) &&
      (showRing ==> ringFired && finishCalls == 0) &&
      finishCalls <= 1 &&
      (ringFired <==> showRing || finishCalls == 1)
    }

    /** Mounting, with the page's `start` flag; if it is already set, step 0 begins at once. */
    constructor (start: bool)
      ensures Valid()
      ensures this.start == start && step == (if start then 0 else -1) && !showRing && finishCalls == 0
    {
      this.start := start;
      step := -1;
      showRing := false;
      timerPending := false;
      ringFired := false;
      finishCalls := 0;
      new;
      if start {
        step := 0;
        timerPending := true;
      }
    }

    predicate ImageShown(i: nat)
      reads this
    {
      step >= i
    }

    predicate ImageWipesIn(i: nat)
      reads this
    {
      step == i
    }

    predicate GroupImagesShown()
      reads this
    {
      step > |Sequence|
    }

    /** The page changes `start`; the first time it is set, the scene leaves -1 for 0. */
    method SetStart(s: bool)
      requires Valid()
      modifies this
      ensures Valid()
      ensures start == s
      ensures old(step) == -1 && s ==> step == 0 && timerPending
      ensures !(old(step) == -1 && s) ==> step == old(step) && timerPending == old(timerPending)
      ensures showRing == old(showRing) && finishCalls == old(finishCalls)
    {
      start := s;
      if start && step == -1 {
        step := 0;
        timerPending := true;
      }
    }

    /** The step's timer fires: it advances the step up to 5, and at 5 it shows the ring. */
    method Timer()
      requires Valid() && timerPending
      modifies this
      ensures Valid()
      ensures old(step) < LastStep ==> step == old(step) + 1 && timerPending && !showRing
      ensures old(step) == LastStep ==> step == LastStep && showRing && !timerPending
      ensures finishCalls == old(finishCalls)
    {
      if step < LastStep {
        step := step + 1;
      } else {
        showRing := true;
        ringFired := true;
        timerPending := false;
      }
    }

    /** `handleRingClick`. */
    method RingClick()
      requires Valid() && showRing
      modifies this
      ensures Valid()
      ensures !showRing && finishCalls == old(finishCalls) + 1 && step == old(step)
    {
      showRing := false;
      finishCalls := finishCalls + 1;
    }
  }
}
