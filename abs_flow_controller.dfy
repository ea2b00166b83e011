/**
 * The opening of the ABS scene: a start circle; its click sets off a fixed
 * sequence of timers that moves A up, shows and wipes in the three arrows in
 * turn and finally makes A blink; a click on the blinking A hands over.
 * The timers of the sequence fire in the order of their delays.
 */
module AbsFlowController {

  /** What each timer of the sequence does. */
  datatype Event = ToStep2 | ShowArrowA | RevealArrowA | ShowArrowB | RevealArrowB | ShowArrowS | RevealArrowS | StartBlinkA

  /** The timers started on entering step 1, in the order their delays make them fire (200 ms to 4000 ms). */
  const Sequence: seq<Event> := [ToStep2, ShowArrowA, RevealArrowA, ShowArrowB, RevealArrowB, ShowArrowS, RevealArrowS, StartBlinkA]

  /** Each reveal comes right after the matching visibility event, and blinking comes last. */
  lemma SequenceOrder()
    ensures forall k :: 0 <= k < |Sequence| && Sequence[k] in {RevealArrowA, RevealArrowB, RevealArrowS} ==>
      k > 0 && Sequence[k - 1] in {ShowArrowA, ShowArrowB, ShowArrowS}
    ensures Sequence[|Sequence| - 1] == StartBlinkA && StartBlinkA !in Sequence[..|Sequence| - 1]
  {
  }

  class Flow {
    var step: nat
    var arrowAVisible: bool
    var arrowARevealed: bool
    var arrowBVisible: bool
    var arrowBRevealed: bool
    var arrowSVisible: bool
    var arrowSRevealed: bool
    var blinkA: bool
    /** How many timers of the sequence have fired. */
    var fired: nat
    const hasOnDone: bool
    var doneCalls: nat

    /** The flags are exactly those set by the first `fired` timers, which exist only once step 1 was entered. */
    predicate Valid()
      reads this
    {
      step <= 2 && fired <= |Sequence| &&
      (step == 0 ==> fired == 0) &&
      (step == 2 <==> fired >= 1) &&
      (arrowAVisible <==> fired >= 2) && (arrowARevealed <==> fired >= 3) &&
      (arrowBVisible <==> fired >= 4) && (arrowBRevealed <==> fired >= 5) &&
      (arrowSVisible <==> fired >= 6) && (arrowSRevealed <==> fired >= 7) &&
      (blinkA <==> fired == 8) &&
      (doneCalls > 0 ==> blinkA && hasOnDone)
    }

    constructor (hasOnDone: bool)
      ensures Valid()
      ensures step == 0 && fired == 0 && !blinkA && doneCalls == 0
      ensures !arrowAVisible && !arrowBVisible && !arrowSVisible
    {
      step := 0;
      arrowAVisible := false;
      arrowARevealed := false;
      arrowBVisible := false;
      arrowBRevealed := false;
      arrowSVisible := false;
      arrowSRevealed := false;
      blinkA := false;
      fired := 0;
      this.hasOnDone := hasOnDone;
      doneCalls := 0;
    }

    /** The start circle exists only at step 0. */
    predicate StartCircleShown()
      reads this
    {
      step == 0
    }

    /** The heading and the circle arrangement appear from step 1 on. */
    predicate ArrangementShown()
      reads this
    {
      step >= 1
    }

    /** A takes clicks only while it blinks. */
    predicate AClickable()
      reads this
    {
      step >= 1 && blinkA
    }

    /** Clicking the start circle enters step 1, whose effect starts the timer sequence. */
    method StartClick()
      requires Valid() && StartCircleShown()
      modifies this
      ensures Valid()
      ensures step == 1 && fired == 0 && ArrangementShown() && doneCalls == old(doneCalls)
    {
      step := 1;
    }

    /** The next timer of the sequence fires. */
    method FireNext()
      requires Valid() && step >= 1 && fired < |Sequence|
      modifies this
      ensures Valid()
      ensures fired == old(fired) + 1 && step == 2 && doneCalls == old(doneCalls)
      ensures arrowARevealed ==> arrowAVisible
      ensures arrowBRevealed ==> arrowBVisible
      ensures arrowSRevealed ==> arrowSVisible
    {
      match Sequence[fired] {
        case ToStep2 => step := 2;
        case ShowArrowA => arrowAVisible := true;
        case RevealArrowA => arrowARevealed := true;
        case ShowArrowB => arrowBVisible := true;
        case RevealArrowB => arrowBRevealed := true;
        case ShowArrowS => arrowSVisible := true;
        case RevealArrowS => arrowSRevealed := true;
        case StartBlinkA => blinkA := true;
      }
      fired := fired + 1;
    }

    /** A click on A: `blinkA && onDone?.()`. */
    method ClickA()
      requires Valid() && ArrangementShown()
      modifies this
      ensures Valid()
      ensures doneCalls == old(doneCalls) + (if blinkA && hasOnDone then 1 else 0)
      ensures step == old(step) && fired == old(fired)
    {
      if blinkA && hasOnDone {
        doneCalls := doneCalls + 1;
      }
    }
  }
}
