/**
 * The goals scene of the life-plan presentation: a first click fades in four
 * goal images one second apart and brings the ring back after them; a second
 * click shows the situation and, after a pause, the final ring; a click on
 * the final ring hands over. Every timer it starts is remembered so that
 * unmounting can cancel them.
 */
module ZieleFlow {

  const Images: seq<string> := ["/pictures/haus.png", "/pictures/auto.png", "/pictures/familie.png", "/pictures/strand.png"]

  /** What a scheduled callback does when it fires. */
  datatype Timer = ShowImage(index: nat) | RingOn | FinalRingOn

  /** The image timers of the first click, for images `0..n-1`, in the order they fire. */
  function ImageTimers(n: nat): (ts: seq<Timer>)
    ensures |ts| == n
    ensures forall k :: 0 <= k < n ==> ts[k] == ShowImage(k)
  {
    if n == 0 then [] else ImageTimers(n - 1) + [ShowImage(n - 1)]
  }

  /** Everything the first click schedules: the four images one second apart, then the ring. */
  function FirstBatch(): seq<Timer> {
    ImageTimers(|Images|) + [RingOn]
  }

  /** The flags of the images whose timers have fired: exactly the first `fired` ones, at most four. */
  function Revealed(fired: nat): (flags: seq<bool>)
    ensures |flags| == |Images|
    ensures forall i :: 0 <= i < |Images| ==> (flags[i] <==> i < fired)
  {
    seq(|Images|, i requires 0 <= i < |Images| => i < fired)
  }

  class Flow {
    var step: nat
    var showRing: bool
    var showSituation: bool
    var finalRing: bool
    var visibleImages: seq<bool>
    /** `timeoutsRef`: every timer scheduled so far, in scheduling order. */
    var timeouts: seq<Timer>
    /** How many of them have fired; they fire in scheduling order. */
    var fired: nat
    var mounted: bool
    const hasOnDone: bool
    var doneCalls: nat

    /** The state after `fired` of the scheduled timers, given the step the clicks have reached. */
    predicate Valid()
      reads this
    {
      step <= 2 && fired <= |timeouts| &&
      (mounted ==>
        (step == 0 ==> timeouts == [] && showRing && !showSituation && !finalRing && visibleImages == Revealed(0)) &&
        (step >= 1 ==> |timeouts| >= 5 && timeouts[..5] == FirstBatch() && visibleImages == Revealed(fired)) &&
        (step == 1 ==> |timeouts| == 5 && !showSituation && !finalRing && (showRing <==> fired == 5)) &&
        (step == 2 ==> |timeouts| == 6 && timeouts[5] == FinalRingOn && fired >= 5 && showSituation &&
                       (finalRing <==> fired == 6) && (showRing ==> finalRing))) &&
      (doneCalls > 0 ==> finalRing && hasOnDone)
    }

    constructor (hasOnDone: bool)
      ensures Valid()
      ensures step == 0 && showRing && !showSituation && !finalRing && visibleImages == [false, false, false, false]
      ensures timeouts == [] && fired == 0 && mounted && doneCalls == 0
    {
      step := 0;
      showRing := true;
      showSituation := false;
      finalRing := false;
      visibleImages := [false, false, false, false];
      timeouts := [];
      fired := 0;
      mounted := true;
      this.hasOnDone := hasOnDone;
      doneCalls := 0;
      new;
      assert visibleImages == Revealed(0);
    }

    /** The goals row fades in once the first click is done. */
    predicate GoalsRowShown()
      reads this
    {
      step >= 1
    }

    /** `schedule`: the timer starts and its id is remembered. */
    method Schedule(t: Timer)
      modifies this
      ensures timeouts == old(timeouts) + [t]
      ensures step == old(step) && showRing == old(showRing) && showSituation == old(showSituation)
      ensures finalRing == old(finalRing) && visibleImages == old(visibleImages) && fired == old(fired)
      ensures mounted == old(mounted) && doneCalls == old(doneCalls)
    {
      timeouts := timeouts + [t];
    }

    /**
     * `handleClick` on the ring. The final ring hands over; the first click
     * starts the image sequence; the second click shows the situation; any
     * other click does nothing.
     */
    method Click()
      requires Valid() && mounted && showRing
      modifies this
      ensures Valid()
      ensures old(finalRing) ==>
        !showRing && doneCalls == old(doneCalls) + (if hasOnDone then 1 else 0) && step == old(step) && timeouts == old(timeouts)
      ensures !old(finalRing) && old(step) == 0 ==>
        step == 1 && !showRing && timeouts == FirstBatch() && doneCalls == old(doneCalls)
      ensures !old(finalRing) && old(step) == 1 && !old(showSituation) ==>
        step == 2 && showSituation && !showRing && timeouts == old(timeouts) + [FinalRingOn] && doneCalls == old(doneCalls)
      ensures !old(finalRing) && old(step) == 2 ==>
        step == 2 && showRing && timeouts == old(timeouts) && doneCalls == old(doneCalls)
    {
      if finalRing {
        showRing := false;
        if hasOnDone {
          doneCalls := doneCalls + 1;
        }
        return;
      }
      if step == 0 {
        showRing := false;
        for index := 0 to |Images|
          invariant timeouts == ImageTimers(index)
          invariant step == 0 && fired == 0 && mounted && !finalRing && !showSituation && !showRing
          invariant visibleImages == Revealed(0) && doneCalls == old(doneCalls)
        {
          Schedule(ShowImage(index));
        }
        Schedule(RingOn);
        step := 1;
        assert timeouts[..5] == timeouts;
        return;
      }
      if step == 1 && !showSituation {
        showSituation := true;
        showRing := false;
        Schedule(FinalRingOn);
        step := 2;
        assert timeouts[..5] == old(timeouts)[..5];
        return;
      }
    }

    /** The next scheduled timer fires. */
    method FireNext()
      requires Valid() && mounted && fired < |timeouts|
      modifies this
      ensures Valid()
      ensures fired == old(fired) + 1 && step == old(step) && timeouts == old(timeouts)
      ensures old(timeouts[fired]).ShowImage? ==>
        var i := old(timeouts[fired]).index;
        i < |Images| && visibleImages == old(visibleImages)[i := true] && showRing == old(showRing)
      ensures old(timeouts[fired]) == RingOn ==> showRing && !finalRing && visibleImages == Revealed(|Images|)
      ensures old(timeouts[fired]) == FinalRingOn ==> showRing && finalRing
      ensures |visibleImages| == |old(visibleImages)| == |Images|
      ensures forall i :: 0 <= i < |Images| && old(visibleImages)[i] ==> visibleImages[i]
    {
      var t := timeouts[fired];
      if fired < 5 {
        assert timeouts[fired] == timeouts[..5][fired];
      }
      match t {
        case ShowImage(index) =>
          var copy := visibleImages;
          copy := copy[index := true];
          visibleImages := copy;
        case RingOn =>
          showRing := true;
        case FinalRingOn =>
          showRing := true;
          finalRing := true;
      }
      fired := fired + 1;
    }

    /** Unmounting cancels every remembered timer and forgets them. */
    method Unmount()
      requires Valid() && mounted
      modifies this
      ensures Valid()
      ensures !mounted && timeouts == [] && fired == 0
      ensures step == old(step) && doneCalls == old(doneCalls)
    {
      mounted := false;
      timeouts := [];
      fired := 0;
    }
  }
}
