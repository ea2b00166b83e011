/**
 * The guarded step counter behind the click-through pages: a click moves the
 * step on by one while it is below the last step and is ignored once the
 * last step is reached.
 */
module StepCounter {

  function Min(a: int, b: int): int {
    if a <= b then a else b
  }

  /** One guarded advance towards `last`. */
  function Advance(i: int, last: int): (j: int)
    ensures i <= last ==> i <= j <= last
    ensures j == i <==> i >= last
  {
    if i < last then i + 1 else i
  }

  /** `k` guarded advances in a row. */
  function AdvanceTimes(i: int, last: int, k: nat): int
    decreases k
  {
    if k == 0 then i else Advance(AdvanceTimes(i, last, k - 1), last)
  }

  /** However often it is clicked, the counter climbs one step per click and stops at `last`. */
  lemma {:induction false} AdvanceTimesReaches(i: int, last: int, k: nat)
    requires i <= last
    ensures AdvanceTimes(i, last, k) == Min(i + k, last)
    decreases k
  {
    if k > 0 {
      AdvanceTimesReaches(i, last, k - 1);
    }
  }

  /** Starting from 0, exactly `last` clicks reach the last step, and no fewer do. */
  lemma ClicksToLast(last: nat, k: nat)
    ensures AdvanceTimes(0, last, k) == last <==> k >= last
  {
    AdvanceTimesReaches(0, last, k);
  }
}
