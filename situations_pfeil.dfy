/**
 * The product-arrow scene of the life-plan presentation: the products and
 * then the ring appear after mounting; each ring click advances the step;
 * the fourth step draws three problem lines one after the other; the click
 * that leaves it hides the ring and hands over, after which the closing
 * checklist shows. Timers are events, fired in the order their delays fix.
 */
module SituationsPfeil {
  import opened StepCounter

  /** The step after which the ring disappears. */
  const LastStep: nat := 4

  /** The problem lines and the `problemStep` at which each is drawn. */
  const Problems: seq<string> := ["Krankheit", "Unfall", "AMS"]

  class Scene {
    var showProducts: bool
    var showRing: bool
    var step: nat
    var problemStep: nat
    /** How many of the two mount timers (products, then ring) have fired. */
    var mountFired: nat
    /** Whether the problem timers of step 3 are still running (they are cancelled when the step changes). */
    var problemTimers: bool
    const hasOnDone: bool
    var doneCalls: nat

    /**
     * The mount timers fire products first; the ring exists only after them;
     * the problem sequence belongs to step 3 and is never past its end;
     * `onDone` is called once, by the click that leaves step 3.
     */
    predicate Valid()
      reads this
    {
      mountFired <= 2 && step <= LastStep && problemStep <= |Problems| &&
      (showProducts <==> mountFired >= 1) &&
      (showRing ==> mountFired == 2 && step < LastStep) &&
      (mountFired < 2 ==> step == 0 && !showRing) &&
      (step < 3 ==> problemStep == 0 && !problemTimers) &&
      (problemTimers ==> step == 3 && problemStep < |Problems|) &&
      (step == 3 && !problemTimers ==> problemStep == |Problems|) &&
      (doneCalls > 0 <==> step == LastStep && hasOnDone) &&
      doneCalls <= 1
    }

    constructor (hasOnDone: bool)
      ensures Valid()
      ensures !showProducts && !showRing && step == 0 && problemStep == 0 && mountFired == 0 && doneCalls == 0
    {
      showProducts := false;
      showRing := false;
      step := 0;
      problemStep := 0;
      mountFired := 0;
      problemTimers := false;
      this.hasOnDone := hasOnDone;
      doneCalls := 0;
    }

    /** The ring is clickable only while shown and before the last step. */
    predicate RingShown()
      reads this
    {
      showRing && step < LastStep
    }

    /** Arrow image `i` (the arrow, then the line) is revealed once the step has passed it. */
    predicate ArrowRevealed(i: nat)
      reads this
    {
      step > i
    }

    /** Problem line `index` (1 to 3) is drawn once `problemStep` reaches it. */
    predicate ProblemLineShown(index: nat)
      reads this
    {
      problemStep >= index
    }

    /** Its label is fully visible once the sequence has passed it, and fades in while it is the newest line. */
    predicate ProblemLabelShown(index: nat)
      reads this
    {
      problemStep > index
    }

    predicate ProblemLabelFadingIn(index: nat)
      reads this
    {
      problemStep == index
    }

    /** The closing checklist. */
    predicate ChecklistShown()
      reads this
    {
      step >= LastStep
    }

    /** The next mount timer fires: first the products, then the ring. */
    method MountTimer()
      requires Valid() && mountFired < 2
      modifies this
      ensures Valid()
      ensures mountFired == old(mountFired) + 1
      ensures old(mountFired) == 0 ==> showProducts && !showRing
      ensures old(mountFired) == 1 ==> showProducts && showRing && RingShown()
      ensures step == old(step)
    {
      if mountFired == 0 {
        showProducts := true;
      } else {
        showRing := true;
      }
      mountFired := mountFired + 1;
    }

    /**
     * A ring click advances the step; the click at step 3 also hides the ring
     * and calls `onDone`. Entering step 3 restarts the problem sequence at 0;
     * leaving it cancels the problem timers still pending.
     */
    method RingClick()
      requires Valid() && RingShown()
      modifies this
      ensures Valid()
      ensures step == Advance(old(step), LastStep) && step == old(step) + 1
      ensures old(step) == 3 ==> !showRing && doneCalls == (if hasOnDone then 1 else 0) && ChecklistShown()
      ensures old(step) < 3 ==> showRing && doneCalls == 0
      ensures step == 3 ==> problemStep == 0 && problemTimers
      ensures old(step) == 3 ==> !problemTimers && problemStep == old(problemStep)
    {
      var before := step;
      step := step + 1;
      if before == 3 {
        showRing := false;
        if hasOnDone {
          doneCalls := doneCalls + 1;
        }
      }
      if step == 3 {
        problemStep := 0;
        problemTimers := true;
      } else {
        problemTimers := false;
      }
    }

    /** The next problem timer fires and draws the next line. */
    method ProblemTimer()
      requires Valid() && problemTimers
      modifies this
      ensures Valid()
      ensures problemStep == old(problemStep) + 1 && step == 3
      ensures problemTimers <==> problemStep < |Problems|
      ensures ProblemLineShown(problemStep) && ProblemLabelFadingIn(problemStep)
    {
      problemStep := problemStep + 1;
      if problemStep == |Problems| {
        problemTimers := false;
      }
    }
  }
}
