/**
 * The recommendation sequence of the presentation pages: eight images wiped
 * in one click at a time; after each click the ring comes back two seconds
 * later, except after the click that shows the last image. Timers are events.
 */
module EmpfehlungFlow {

  const Sequence: seq<string> := ["kfz.png", "kfzpfeil.png", "hausetw.png", "etwpfeil.png", "35.png", "steuern.png", "steuerpfeil.png", "strich.png"]

  /** The last step at which the ring may still appear: one before the last image. */
  const LastRingStep: nat := |Sequence| - 2

  lemma LastRingStepIsSix()
    ensures LastRingStep == 6 && LastRingStep + 1 == |Sequence| - 1
  {
  }

  class Flow {
    var step: nat
    var showRing: bool
    /** The timer started on mount. */
    var mountTimer: bool
    /** Ring timers started by clicks and not yet fired. */
    var ringTimers: nat

    /**
     * The step never passes the last image; a ring timer is pending only
     * while the ring is hidden; after the last click neither the ring nor a
     * timer for it is left.
     */
    predicate Valid()
      reads this
    {
      step <= LastRingStep + 1 &&
      ringTimers <= 1 &&
      (step > 0 ==> !mountTimer) &&
      (mountTimer || ringTimers > 0 ==> !showRing) &&
      (ringTimers > 0 ==> 0 < step <= LastRingStep) &&
      (step == LastRingStep + 1 ==> !showRing && ringTimers == 0)
    }

    constructor ()
      ensures Valid()
      ensures step == 0 && !showRing && mountTimer && ringTimers == 0
    {
      step := 0;
      showRing := false;
      mountTimer := true;
      ringTimers := 0;
    }

    /** The ring can be clicked only while it is shown and the last image is still ahead. */
    predicate RingShown()
      reads this
    {
      showRing && step <= LastRingStep
    }

    predicate ImageShown(i: nat)
      reads this
    {
      step >= i
    }

    predicate ImageWipesIn(i: nat)
      reads this
    {
      step == i
    }

    /** The mount timer fires. */
    method MountTimer()
      requires Valid() && mountTimer
      modifies this
      ensures Valid()
      ensures showRing && !mountTimer && step == old(step) && ringTimers == old(ringTimers)
    {
      showRing := true;
      mountTimer := false;
    }

    /** `handleClick`: the ring hides, the next image shows, and the ring returns later only before the last ring step. */
    method Click()
      requires Valid() && RingShown()
      modifies this
      ensures Valid()
      ensures step == old(step) + 1 && !showRing
      ensures ringTimers == (if old(step) < LastRingStep then 1 else 0)
      ensures ImageShown(step) && ImageWipesIn(step)
    {
      showRing := false;
      var before := step;
      step := step + 1;
      if before < LastRingStep {
        ringTimers := ringTimers + 1;
      }
    }

    /** A click's ring timer fires. */
    method RingTimer()
      requires Valid() && ringTimers > 0
      modifies this
      ensures Valid()
      ensures showRing && ringTimers == old(ringTimers) - 1 && step == old(step) && RingShown()
    {
      showRing := true;
      ringTimers := ringTimers - 1;
    }
  }

  /** Once the last image shows, the ring never comes back. */
  lemma FinalStepIsQuiet(f: Flow)
    requires f.Valid() && f.step == LastRingStep + 1
    ensures !f.RingShown() && !f.mountTimer && f.ringTimers == 0
  {
  }
}
