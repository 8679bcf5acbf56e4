/** The testimonials slider: a window over `count` items that shows one item at a
    time, moved by a right button, a left button and a seven-second timer. */
module Testimonials {

  /** The index after a click on the right button: the next item, wrapping to the first. */
  function StepRight(i: nat, count: nat): (r: nat)
    requires 0 < count
    ensures r < count
    ensures i < count ==> r == if i + 1 == count then 0 else i + 1
  {
    (i + 1) % count
  }

  /** The index after a click on the left button: the previous item, wrapping to the last. */
  function StepLeft(i: nat, count: nat): (r: nat)
    requires 0 < count
    ensures r < count
    ensures i < count ==> r == if i == 0 then count - 1 else i - 1
  {
    (i - 1 + count) % count
  }

  /** A left click undoes a right click. */
  lemma LeftUndoesRight(i: nat, count: nat)
    requires i < count
    ensures StepLeft(StepRight(i, count), count) == i
  {
  }

  /** A right click undoes a left click. */
  lemma RightUndoesLeft(i: nat, count: nat)
    requires i < count
    ensures StepRight(StepLeft(i, count), count) == i
  {
  }

  /** The index after k right clicks (or k automatic advances). */
  function RightTimes(i: nat, count: nat, k: nat): (r: nat)
    requires 0 < count
  {
    if k == 0 then i else StepRight(RightTimes(i, count, k - 1), count)
  }

  /** Within one lap, k right clicks from a valid index move the slider k places forward,
      wrapping once past the last item. */
  lemma {:induction false} RightTimesWithinLap(i: nat, count: nat, k: nat)
    requires i < count && k <= count
    ensures RightTimes(i, count, k) == if i + k < count then i + k else i + k - count
  {
    if k > 0 {
      RightTimesWithinLap(i, count, k - 1);
    }
  }

  /** k clicks followed by m clicks are k + m clicks. */
  lemma {:induction false} RightTimesAdd(i: nat, count: nat, k: nat, m: nat)
    requires 0 < count
    ensures RightTimes(RightTimes(i, count, k), count, m) == RightTimes(i, count, k + m)
  {
    if m > 0 {
      RightTimesAdd(i, count, k, m - 1);
    }
  }

  /** After as many right clicks as there are items the slider is back where it started,
      and not before. */
  lemma FullCycleReturns(i: nat, count: nat)
    requires i < count
    ensures RightTimes(i, count, count) == i
    ensures forall k :: 0 < k < count ==> RightTimes(i, count, k) != i
  {
    RightTimesWithinLap(i, count, count);
    forall k | 0 < k < count
      ensures RightTimes(i, count, k) != i
    {
      RightTimesWithinLap(i, count, k);
    }
  }

  /** The auto-advance timer and the right button are periodic with the number of items. */
  lemma RightTimesPeriodic(i: nat, count: nat, k: nat)
    requires i < count
    ensures RightTimes(i, count, k + count) == RightTimes(i, count, k)
  {
    RightTimesAdd(i, count, count, k);
    FullCycleReturns(i, count);
    assert count + k == k + count;
  }

  /** The slider's state: the shown index and the horizontal offset, in percent of the
      window's width, last written to the window. */
  class Carousel {
    const count: nat
    var index: nat
    var offsetPercent: int

    /** At least one item, the index names one of them, and the window shows it. */
    ghost predicate Valid()
      reads this
    {
      0 < count && index < count && offsetPercent == -(index * 100)
    }

    constructor (count: nat)
      requires 0 < count
      ensures Valid() && this.count == count && index == 0
    {
      this.count := count;
      index := 0;
      offsetPercent := 0;
    }

    /** Moves the window so that item i is shown. */
    method Show(i: nat)
      modifies this`offsetPercent
      ensures offsetPercent == -(i * 100)
    {
      offsetPercent := -(i * 100);
    }

    /** The right button. */
    method ClickRight()
      requires Valid()
      modifies this`index, this`offsetPercent
      ensures Valid() && index == StepRight(old(index), count)
    {
      index := (index + 1) % count;
      Show(index);
    }

    /** The left button. */
    method ClickLeft()
      requires Valid()
      modifies this`index, this`offsetPercent
      ensures Valid() && index == StepLeft(old(index), count)
    {
      index := (index - 1 + count) % count;
      Show(index);
    }

    /** The timer that fires every 7000 milliseconds: the same step as the right button. */
    method AutoAdvance()
      requires Valid()
      modifies this`index, this`offsetPercent
      ensures Valid() && index == StepRight(old(index), count)
    {
      index := (index + 1) % count;
      Show(index);
    }
  }
}
