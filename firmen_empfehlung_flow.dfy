/**
 * The recommendation sequence of the company presentation: eight images
 * wiped in one click at a time; the ring that leads on reappears two seconds
 * after each step until the last image, where the page is told the sequence
 * is complete. The ring timer is an event.
 */
module FirmenEmpfehlungFlow {
  import opened StepCounter

  const Sequence: seq<string> := ["kfz.png", "kfzpfeil.png", "hausetw.png", "etwpfeil.png", "35.png", "steuern.png", "steuerpfeil.png", "strich.png"]

  const LastStep: nat := |Sequence| - 1

  lemma LastStepIsSeven()
    ensures LastStep == 7
  {
  }

  class Flow {
    var step: nat
    var showRing: bool
    /** The pending ring timer of the current step's effect. */
    var ringTimer: bool
    /** Whether the page passed an `onComplete` callback. */
    const hasOnComplete: bool
    /** How often `onComplete` was called. */
    var completions: nat

    /**
     * The step stays within the sequence; a ring timer is pending only below
     * the last step; `onComplete` has been called exactly when the last step
     * is reached (and a callback exists).
     */
    predicate Valid()
      reads this
    {
      step <= LastStep &&
      (ringTimer ==> step < LastStep) &&
      (completions > 0 <==> hasOnComplete && step == LastStep)
    }

    /** Mounting: step 0 and no ring; the step effect starts the ring timer. */
    constructor (hasOnComplete: bool)
      ensures Valid()
      ensures step == 0 && !showRing && ringTimer && completions == 0 && this.hasOnComplete == hasOnComplete
    {
      step := 0;
      showRing := false;
      ringTimer := true;
      this.hasOnComplete := hasOnComplete;
      completions := 0;
    }

    /** The ring is drawn only while it is switched on and the last step is not reached. */
    predicate RingShown()
      reads this
    {
      showRing && step < LastStep
    }

    /** Image `i` of the sequence is visible once the step has reached it. */
    predicate ImageShown(i: nat)
      reads this
    {
      step >= i
    }

    /** Only the newest image wipes in. */
    predicate ImageAnimates(i: nat)
      reads this
    {
      step == i
    }

    /** The extra `wichtig.png` appears only on the last step. */
    predicate WichtigShown()
      reads this
    {
      step == LastStep
    }

    /**
     * `handleClick` and the effects of the new step: ignored at the last
     * step; otherwise the ring hides, the step advances, the old timer is
     * cleared, a new one starts below the last step, and reaching the last
     * step calls `onComplete`.
     */
    method Click()
      requires Valid()
      modifies this
      ensures Valid()
      ensures step == Advance(old(step), LastStep)
      ensures old(step) >= LastStep ==>
        showRing == old(showRing) && ringTimer == old(ringTimer) && completions == old(completions)
      ensures old(step) < LastStep ==> !showRing && !RingShown() && ringTimer == (step < LastStep)
      ensures completions == old(completions) + (if old(step) < LastStep && step == LastStep && hasOnComplete then 1 else 0)
    {
      if step >= LastStep {
        return;
      }
      showRing := false;
      step := step + 1;
      ringTimer := false;
      if step < LastStep {
        ringTimer := true;
      }
      if step == LastStep && hasOnComplete {
        completions := completions + 1;
      }
    }

    /** The ring timer fires. */
    method RingTimer()
      requires Valid() && ringTimer
      modifies this
      ensures Valid()
      ensures showRing && !ringTimer && step == old(step) && RingShown()
    {
      showRing := true;
      ringTimer := false;
    }

    /**
     * The page renders again with a new `onComplete` function: the completion
     * effect runs again and, on the last step, calls it once more.
     */
    method NewCallback()
      requires Valid()
      modifies this
      ensures Valid()
      ensures step == old(step) && showRing == old(showRing) && ringTimer == old(ringTimer)
      ensures completions == old(completions) + (if step == LastStep && hasOnComplete then 1 else 0)
    {
      if step == LastStep && hasOnComplete {
        completions := completions + 1;
      }
    }
  }
}
