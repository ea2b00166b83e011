/**
 * The advertising scene: six layers wiped in one ring click at a time; after
 * each step the ring reappears after a pause that is longer from the fourth
 * layer on; after the last layer there is no ring.
 */
module Werbung {
  import opened Wrappers
  import opened StepCounter

  const Group200: seq<string> := ["200_1.png", "200_2.png", "200_3.png", "200_4.png", "200_5.png"]
  const GroupX: seq<string> := ["x2.png", "x3.png", "x4.png", "x5.png"]

  /** The images of each layer, in the order the steps reveal them. */
  const Layers: seq<seq<string>> := [["werbung.png"], ["kunde.png"], ["1000.png"], Group200, ["x1.png"], GroupX]

  const LastStep: nat := |Layers| - 1

  /** The pause in milliseconds before the ring comes back at `step`. */
  function RingDelay(step: nat): (ms: nat)
    ensures step >= 3 <==> ms == 2500
    ensures step < 3 <==> ms == 1500
  {
    if step >= 3 then 2500 else 1500
  }

  class Flow {
    var step: nat
    var showRing: bool
    /** The delay of the step effect's pending ring timer, if one is pending. */
    var ringTimer: Option<nat>

    /** Below the last step the ring is either shown or waiting for its timer; at the last step neither. */
    predicate Valid()
      reads this
    {
      step <= LastStep &&
      (ringTimer.Some? ==> step < LastStep && !showRing && ringTimer.value == RingDelay(step)) &&
      (step < LastStep ==> showRing || ringTimer.Some?) &&
      (step == LastStep ==> !showRing && ringTimer.None?)
    }

    /** Mounting: step 0, and its effect hides the ring and starts its timer. */
    constructor ()
      ensures Valid()
      ensures step == 0 && !showRing && ringTimer == Some(1500)
    {
      step := 0;
      showRing := false;
      ringTimer := Some(RingDelay(0));
    }

    predicate RingShown()
      reads this
    {
      showRing && step < LastStep
    }

    /** Layer `k` shows once the step has reached it; only the newest one wipes in. */
    predicate LayerShown(k: nat)
      reads this
    {
      step >= k
    }

    predicate LayerWipesIn(k: nat)
      reads this
    {
      step == k
    }

    /**
     * `handleRingClick` followed by the new step's effect: the ring hides and
     * the step advances; below the last step a ring timer with the step's
     * delay starts, at the last step none does.
     */
    method RingClick()
      requires Valid() && RingShown()
      modifies this
      ensures Valid()
      ensures step == Advance(old(step), LastStep) && step == old(step) + 1
      ensures !showRing
      ensures ringTimer == (if step < LastStep then Some(RingDelay(step)) else None)
    {
      showRing := false;
      step := step + 1;
      if step >= LastStep {
        ringTimer := None;
      } else {
        ringTimer := Some(RingDelay(step));
      }
    }

    /** The ring timer fires. */
    method RingTimer()
      requires Valid() && ringTimer.Some?
      modifies this
      ensures Valid()
      ensures showRing && ringTimer.None? && step == old(step) && RingShown()
    {
      showRing := true;
      ringTimer := None;
    }
  }
}
