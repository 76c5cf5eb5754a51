/**
 * The order dialog: "Place Order" confirms the order, a first timer starts the
 * preparation, an interval raises the progress by 10 until it reaches 100, and
 * a last timer reports the order complete and resets the dialog. Each timer
 * callback is one method; `timer` records which callback is pending.
 */
module OrderProgress {

  datatype OrderStatus = Ordering | Confirmed | Preparing

  /** The callback the dialog is waiting for, if any. */
  datatype Timer = Idle | ConfirmDelay | ProgressInterval | CompleteDelay

  const PROGRESS_STEP: int := 10
  const PROGRESS_DONE: int := 100

  datatype ProgressLabel = PreparingIngredients | Cooking | AlmostReady

  /** The line under the progress bar. */
  function Label(progress: int): ProgressLabel
  {
    if progress < 50 then PreparingIngredients
    else if progress < 80 then Cooking
    else AlmostReady
  }

  function LabelText(tag: ProgressLabel): string
  {
    match tag
    case PreparingIngredients => "Preparing ingredients..."
    case Cooking => "Cooking your food..."
    case AlmostReady => "Almost ready for delivery!"
  }

  function LabelRank(tag: ProgressLabel): nat
  {
    match tag
    case PreparingIngredients => 0
    case Cooking => 1
    case AlmostReady => 2
  }

  /** As progress grows, the label only moves forward. */
  lemma LabelMonotone(p: int, q: int)
    requires p <= q
    ensures LabelRank(Label(p)) <= LabelRank(Label(q))
  {
  }

  /** After k ticks of the interval: 10 to 40 prepare, 50 to 70 cook, 80 to 100 almost ready. */
  lemma LabelsAlongTheTicks(k: int)
    requires 1 <= k <= 10
    ensures Label(PROGRESS_STEP * k) == (if k <= 4 then PreparingIngredients else if k <= 7 then Cooking else AlmostReady)
  {
  }

  class OrderDialog {

    var orderStatus: OrderStatus
    var progress: int
    /** The counter the interval callback closes over. */
    var currentProgress: int
    var timer: Timer

    ghost predicate Valid()
      reads this
    {
      && 0 <= progress <= PROGRESS_DONE
      && progress % PROGRESS_STEP == 0
      && (timer == Idle <==> orderStatus == Ordering)
      && (timer == Idle ==> progress == 0)
      && (timer == ConfirmDelay ==> orderStatus == Confirmed && progress == 0)
      && (timer == ProgressInterval ==> orderStatus == Preparing && progress == currentProgress < PROGRESS_DONE)
      && (timer == CompleteDelay ==> orderStatus == Preparing && progress == PROGRESS_DONE)
    }

    /** The dialog starts in "ordering" with no progress. */
    constructor ()
      ensures Valid()
      ensures orderStatus == Ordering && progress == 0 && timer == Idle
    {
      orderStatus, progress, currentProgress, timer := Ordering, 0, 0, Idle;
    }

    /** "Place Order" is offered only while ordering; it confirms and starts the first delay. */
    method PlaceOrder()
      requires Valid()
      requires orderStatus == Ordering
      modifies this
      ensures Valid()
      ensures orderStatus == Confirmed && timer == ConfirmDelay && progress == old(progress)
    {
      orderStatus := Confirmed;
      timer := ConfirmDelay;
    }

    /** The first delay ends: preparation starts with the counter at 0 and the interval running. */
    method ConfirmDelayEnds()
      requires Valid()
      requires timer == ConfirmDelay
      modifies this
      ensures Valid()
      ensures orderStatus == Preparing && timer == ProgressInterval
      ensures currentProgress == 0 && progress == 0
    {
      orderStatus := Preparing;
      currentProgress := 0;
      timer := ProgressInterval;
    }

    /** One interval tick: ten more; at 100 the interval stops and the last delay starts. */
    method Tick()
      requires Valid()
      requires timer == ProgressInterval
      modifies this
      ensures Valid()
      ensures progress == old(progress) + PROGRESS_STEP && currentProgress == progress
      ensures timer == (if progress >= PROGRESS_DONE then CompleteDelay else ProgressInterval)
      ensures orderStatus == Preparing
    {
      currentProgress := currentProgress + PROGRESS_STEP;
      progress := currentProgress;
      if currentProgress >= PROGRESS_DONE {
        timer := CompleteDelay;
      }
    }

    /** The last delay ends: the dialog is back to "ordering" with no progress and no timer pending. */
    method CompleteDelayEnds()
      requires Valid()
      requires timer == CompleteDelay
      modifies this
      ensures Valid()
      ensures orderStatus == Ordering && progress == 0 && timer == Idle
    {
      orderStatus := Ordering;
      progress := 0;
      timer := Idle;
    }
  }

  /**
   * A whole order, from "Place Order" to the reset: the interval ticks exactly
   * ten times, progress never passes 100, and the dialog ends as it started.
   */
  method RunOrder(d: OrderDialog) returns (ticks: nat)
    requires d.Valid() && d.orderStatus == Ordering
    modifies d
    ensures d.Valid()
    ensures ticks == 10
    ensures d.orderStatus == Ordering && d.progress == 0 && d.timer == Idle
  {
    d.PlaceOrder();
    d.ConfirmDelayEnds();
    ticks := 0;
    while d.timer == ProgressInterval
      invariant d.Valid()
      invariant d.timer == ProgressInterval || d.timer == CompleteDelay
      invariant d.progress == PROGRESS_STEP * ticks
      decreases PROGRESS_DONE - d.progress
    {
      d.Tick();
      ticks := ticks + 1;
    }
    d.CompleteDelayEnds();
  }
}
