/**
 * The capital-market page of the presentation: a start circle, eight images
 * revealed one click at a time, and on the last image two warning triggers
 * that each open a hint, the right one only after the left hint. Timers are
 * events: each pending `setTimeout` callback is counted until it fires.
 */
module KapitalmarktPages {
  import opened StepCounter

  const Images: seq<string> := ["bank.png", "vers.png", "bsk.png", "invest.png", "immo.png", "staat.png", "v.png", "ovb.png"]

  /** The index of the last image. */
  const LastIndex: nat := |Images| - 1

  lemma LastIndexIsSeven()
    ensures LastIndex == 7 && Images[LastIndex] == "ovb.png"
  {
  }

  class Page {
    var started: bool
    var imageIndex: nat
    var showNextTrigger: bool
    var showLeftTrigger: bool
    var showRightTrigger: bool
    var showLeftHint: bool
    var showRightHint: bool
    /** Pending timers that show the next trigger again. */
    var nextTimers: nat
    /** The pending timer of the last-image effect that shows the left trigger. */
    var leftTimer: bool
    /** Pending timers that show the right trigger. */
    var rightTimers: nat

    /**
     * The index stays within the images; nothing of the hint sequence exists
     * before the last image; the right trigger and its timer come only after
     * the left hint, and the left trigger's timer only before the left trigger.
     */
    predicate Valid()
      reads this
    {
      imageIndex <= LastIndex &&
      (!started ==> imageIndex == 0 && nextTimers == 0) &&
      (imageIndex < LastIndex ==>
        !showLeftTrigger && !showRightTrigger && !showLeftHint && !showRightHint && !leftTimer && rightTimers == 0) &&
      (leftTimer ==> !showLeftTrigger && !showLeftHint) &&
      (showRightTrigger || rightTimers > 0 ==> showLeftHint) &&
      (showRightHint ==> showRightTrigger)
    }

    constructor ()
      ensures Valid()
      ensures !started && imageIndex == 0 && showNextTrigger
      ensures !showLeftTrigger && !showRightTrigger && !showLeftHint && !showRightHint
      ensures nextTimers == 0 && !leftTimer && rightTimers == 0
    {
      started := false;
      imageIndex := 0;
      showNextTrigger := true;
      showLeftTrigger := false;
      showRightTrigger := false;
      showLeftHint := false;
      showRightHint := false;
      nextTimers := 0;
      leftTimer := false;
      rightTimers := 0;
    }

    /** The image sequence is rendered once the page has been started. */
    predicate ImagesShown()
      reads this
    {
      started
    }

    /** The circle that leads to the next image. */
    predicate NextTriggerShown()
      reads this
    {
      started && showNextTrigger && imageIndex < LastIndex
    }

    predicate LeftTriggerShown()
      reads this
    {
      started && imageIndex == LastIndex && showLeftTrigger && !showLeftHint
    }

    predicate RightTriggerShown()
      reads this
    {
      started && imageIndex == LastIndex && showRightTrigger && !showRightHint
    }

    predicate LeftHintShown()
      reads this
    {
      started && imageIndex == LastIndex && showLeftHint
    }

    predicate RightHintShown()
      reads this
    {
      started && imageIndex == LastIndex && showRightHint
    }

    /** A click on the start circle: the images appear, the next trigger waits for its timer. */
    method Start()
      requires Valid() && !started
      modifies this
      ensures Valid()
      ensures started && imageIndex == 0 && !showNextTrigger && nextTimers == old(nextTimers) + 1
      ensures !NextTriggerShown()
    {
      started := true;
      showNextTrigger := false;
      nextTimers := nextTimers + 1;
    }

    /**
     * `handleNext`, followed by the last-image effect when the click reaches
     * the last image: all four hint flags are reset and the left trigger's
     * timer is started.
     */
    method Next()
      requires Valid() && started
      modifies this
      ensures Valid()
      ensures imageIndex == Advance(old(imageIndex), LastIndex)
      ensures old(imageIndex) < LastIndex ==> !showNextTrigger && nextTimers == old(nextTimers) + 1
      ensures old(imageIndex) == LastIndex ==>
        showNextTrigger == old(showNextTrigger) && nextTimers == old(nextTimers) && leftTimer == old(leftTimer)
      ensures old(imageIndex) < LastIndex && imageIndex == LastIndex ==>
        !showLeftTrigger && !showRightTrigger && !showLeftHint && !showRightHint && leftTimer
      ensures !NextTriggerShown()
    {
      if imageIndex < LastIndex {
        showNextTrigger := false;
        imageIndex := imageIndex + 1;
        nextTimers := nextTimers + 1;
        if imageIndex == LastIndex {
          showLeftTrigger := false;
          showRightTrigger := false;
          showLeftHint := false;
          showRightHint := false;
          leftTimer := true;
        }
      }
    }

    /** A next-trigger timer fires. */
    method NextTimer()
      requires Valid() && nextTimers > 0
      modifies this
      ensures Valid()
      ensures showNextTrigger && nextTimers == old(nextTimers) - 1 && imageIndex == old(imageIndex)
    {
      showNextTrigger := true;
      nextTimers := nextTimers - 1;
    }

    /** The last-image effect's timer fires. */
    method LeftTimer()
      requires Valid() && leftTimer
      modifies this
      ensures Valid()
      ensures showLeftTrigger && !leftTimer && imageIndex == old(imageIndex)
      ensures started ==> LeftTriggerShown()
    {
      showLeftTrigger := true;
      leftTimer := false;
    }

    /** `handleLeftTriggerClick`: the left hint opens and the right trigger's timer starts. */
    method LeftTriggerClick()
      requires Valid() && LeftTriggerShown()
      modifies this
      ensures Valid()
      ensures !showLeftTrigger && showLeftHint && rightTimers == old(rightTimers) + 1
      ensures LeftHintShown() && !LeftTriggerShown()
    {
      showLeftTrigger := false;
      showLeftHint := true;
      rightTimers := rightTimers + 1;
    }

    /** A right-trigger timer fires. */
    method RightTimer()
      requires Valid() && rightTimers > 0
      modifies this
      ensures Valid()
      ensures showRightTrigger && rightTimers == old(rightTimers) - 1 && showLeftHint
    {
      showRightTrigger := true;
      rightTimers := rightTimers - 1;
    }

    /** A click on the right trigger opens the right hint, and the trigger disappears. */
    method RightTriggerClick()
      requires Valid() && RightTriggerShown()
      modifies this
      ensures Valid()
      ensures showRightHint && RightHintShown() && !RightTriggerShown()
      ensures LeftHintShown()
    {
      showRightHint := true;
    }
  }
}
