// The view controller's pan-gesture state machine. It owns two pieces of
// mutable state, the cumulative progress and the touch point at which progress
// was last computed, and turns a stream of gesture samples into an interactive
// card index plus a local progress. Animations and view updates are not
// performed here: every operation returns the commands it would issue to the
// UIKit views, in the order it issues them.

module Controller {
  import opened Geometry
  import opened Progress

  /** Distance against which the gesture velocity is converted into a spring velocity. */
  const SpringReferenceDistance: real := 100.0

  /** The states in which the gesture recognizer calls the controller. */
  datatype GestureState = Possible | Began | Changed | Ended | Cancelled | Failed

  /** What the controller asks of the views. */
  datatype Command =
      /**
       * set the look of card `view` at once: a `Rotated` visual sets its
       * transform and opacity, `Identity` resets only its transform and
       * leaves its opacity as it was
       */
    | SetVisual(view: int, visual: Visual)
      /**
       * spring-animate card `view` towards `TargetVisual(state)`, starting
       * with `velocity`
       */
    | AnimateView(view: int, state: ViewState, velocity: real)
      /** spring-animate card `view` into the frame of stack slot `slot` */
    | AnimateFrame(view: int, slot: int)

  // ---------------------------------------------------------------------------
  // A pan sample that moved

  /** Progress increment of one sample: the clamped vertical travel since the last sample. */
  function Increment(last: Point, location: Point): (p: real)
    ensures -1.0 <= p <= 1.0
    ensures -MaximumDistance <= location.y - last.y <= MaximumDistance ==>
      p * MaximumDistance == location.y - last.y
  {
    ProgressForTravelledDistance(DistanceToPoint(last, location))
  }

  /**
   * Cumulative progress after a moving sample. The increment is added when the
   * sum stays within [0, count]; a sum below 0 sets the progress to 0, and a
   * sum above count leaves the progress where it was.
   */
  function ChangedProgress(count: CardCount, cp: real, last: Point, location: Point): (r: real)
    ensures var sum := cp + Increment(last, location);
      (sum < 0.0 ==> r == 0.0) &&
      (0.0 <= sum <= count as real ==> r == sum) &&
      (sum > count as real ==> r == cp)
    ensures r >= 0.0
    ensures cp <= count as real ==> r <= count as real
  {
    var sum := cp + Increment(last, location);
    if sum >= 0.0 then
      if sum <= count as real then sum else cp
    else 0.0
  }

  /**
   * The view update issued for cumulative progress `cp`: the selected card
   * with the visual state of its local progress. Whenever `cp` is not
   * negative the guard does not fire and the card is visible. At exactly
   * `count` the selected index is `count`, with local progress 0, so the last
   * card is shown upright and opaque.
   */
  function InteractiveViewUpdate(count: CardCount, cp: real): (c: Command)
    ensures c.SetVisual?
    ensures cp >= 0.0 ==>
      c.visual.Rotated? && 0.0 < c.visual.alpha <= 1.0 &&
      c.view == (if cp.Floor < count then cp.Floor else count - 1)
    ensures cp >= 0.0 ==>
      var local := cp - cp.Floor as real;
      c.visual == Rotated(-local, 1.0 - local)
    ensures cp == count as real ==> c == SetVisual(count - 1, Rotated(0.0, 1.0))
    ensures cp < 0.0 ==> c == SetVisual(0, Identity)
  {
    var index := IndexOfInteractiveView(cp);
    LocalProgressOfInteractiveView(cp);
    SetVisual(ViewForIndex(count, index), UpdateInteractiveView(ProgressForViewWithIndex(index, cp)))
  }

  /** After a moving sample the card update never falls into the defensive guard. */
  lemma ChangedKeepsGuardQuiet(count: CardCount, cp: real, last: Point, location: Point)
    ensures InteractiveViewUpdate(count, ChangedProgress(count, cp, last, location)).visual.Rotated?
  {
  }

  /** Cumulative progress after a run of moving samples, taken in order. */
  function Replay(count: CardCount, cp: real, last: Point, samples: seq<Point>): real
    decreases |samples|
  {
    if samples == [] then cp
    else Replay(count, ChangedProgress(count, cp, last, samples[0]), samples[0], samples[1..])
  }

  /** The last point of a run of samples, or `last` if there is none. */
  function PathEnd(last: Point, samples: seq<Point>): Point {
    if samples == [] then last else samples[|samples| - 1]
  }

  /**
   * Any run of moving samples keeps the cumulative progress at most `count` if
   * it started there, and leaves it non-negative once there is a sample.
   */
  lemma {:induction false} ReplayBounds(count: CardCount, cp: real, last: Point, samples: seq<Point>)
    ensures cp >= 0.0 || samples != [] ==> Replay(count, cp, last, samples) >= 0.0
    ensures cp <= count as real ==> Replay(count, cp, last, samples) <= count as real
    decreases |samples|
  {
    if samples != [] {
      ReplayBounds(count, ChangedProgress(count, cp, last, samples[0]), samples[0], samples[1..]);
    }
  }

  /** Every step of the run travels at most MaximumDistance vertically. */
  ghost predicate SmallSteps(last: Point, samples: seq<Point>) {
    (samples != [] ==> -MaximumDistance <= samples[0].y - last.y <= MaximumDistance) &&
    forall i :: 0 < i < |samples| ==>
      -MaximumDistance <= samples[i].y - samples[i - 1].y <= MaximumDistance
  }

  /** No sample of the run takes the touch-following progress outside [0, count]. */
  ghost predicate StaysWithinStack(count: CardCount, cp: real, last: Point, samples: seq<Point>) {
    forall i :: 0 <= i < |samples| ==>
      0.0 <= cp + (samples[i].y - last.y) / MaximumDistance <= count as real
  }

  /**
   * Progress follows the finger: when no sample jumps by more than
   * MaximumDistance and the bounds are never hit, the cumulative progress
   * moves by the total vertical travel over MaximumDistance, however the
   * travel was split into samples.
   */
  lemma {:induction false} ReplayFollowsTouch(count: CardCount, cp: real, last: Point, samples: seq<Point>)
    requires SmallSteps(last, samples)
    requires StaysWithinStack(count, cp, last, samples)
    ensures Replay(count, cp, last, samples) ==
      cp + DistanceToPoint(last, PathEnd(last, samples)) / MaximumDistance
    decreases |samples|
  {
    if samples != [] {
      var next := samples[0];
      var cp' := ChangedProgress(count, cp, last, next);
      assert 0.0 <= cp + (next.y - last.y) / MaximumDistance <= count as real;
      assert cp' == cp + (next.y - last.y) / MaximumDistance;
      var rest := samples[1..];
      assert SmallSteps(next, rest) by {
        forall i | 0 < i < |rest|
          ensures -MaximumDistance <= rest[i].y - rest[i - 1].y <= MaximumDistance
        {
          assert rest[i] == samples[i + 1] && rest[i - 1] == samples[i];
        }
      }
      assert StaysWithinStack(count, cp', next, rest) by {
        forall i | 0 <= i < |rest|
          ensures 0.0 <= cp' + (rest[i].y - next.y) / MaximumDistance <= count as real
        {
          assert rest[i] == samples[i + 1];
        }
      }
      ReplayFollowsTouch(count, cp', next, rest);
      assert PathEnd(next, rest) == PathEnd(last, samples);
    }
  }

  // ---------------------------------------------------------------------------
  // The end of a pan

  /**
   * Whether the interactive card springs back (Initial) or flips away
   * (Finished) when a pan ends with vertical velocity `velocityY`.
   */
  function EndedOutcome(count: CardCount, cp: real, velocityY: real): (s: ViewState)
    ensures var index := IndexOfInteractiveView(cp);
      var local := cp - index as real;
      s == Initial <==>
        (velocityY < 0.0 && local < UpwardsThreshold) ||
        (velocityY >= 0.0 && local < DownwardsThreshold) ||
        index == count - 1
  {
    var index := IndexOfInteractiveView(cp);
    var haveReachedLastView := index == count - 1;
    if ShouldFinishGesture(ProgressForViewWithIndex(index, cp), DirectionOfPan(velocityY)) || haveReachedLastView
    then Initial
    else Finished
  }

  /**
   * The completion rule on ten cards: thresholds for both directions, and the
   * last card, which springs back even far past the downward threshold.
   */
  lemma CompletionRuleTable()
    ensures EndedOutcome(10, 0.65, -1.0) == Initial
    ensures EndedOutcome(10, 0.75, -1.0) == Finished
    ensures EndedOutcome(10, 0.35, 1.0) == Initial
    ensures EndedOutcome(10, 0.45, 1.0) == Finished
    ensures EndedOutcome(10, 9.9, 1.0) == Initial
    ensures EndedOutcome(10, 0.5, 0.0) == Finished && EndedOutcome(10, 0.5, -0.1) == Initial
  {
  }

  /**
   * The whole number the cumulative progress snaps to: the one in
   * [cp - 1, cp) when the card springs back, the one in (cp, cp + 1] when it
   * flips away.
   */
  function SnapProgress(cp: real, state: ViewState): (r: real)
    ensures IsWhole(r)
    ensures state == Initial ==> cp - 1.0 <= r < cp
    ensures state == Finished ==> cp < r <= cp + 1.0
  {
    if state == Initial then Ceil(cp - 1.0) as real else (cp + 1.0).Floor as real
  }

  /**
   * Springing back lands on the whole part of a fractional progress, but one
   * card earlier when the progress is already whole: from 0 it goes to -1.
   */
  lemma {:induction false} CancelSnap(cp: real)
    ensures SnapProgress(cp, Initial) == if IsWhole(cp) then cp - 1.0 else cp.Floor as real
    ensures SnapProgress(0.0, Initial) == -1.0
  {
    var r := SnapProgress(cp, Initial);
    var f := cp.Floor;
    if IsWhole(cp) {
      assert r.Floor - f < 0 && r.Floor - f >= -1;
    } else {
      assert f as real < cp;
      assert r.Floor - f >= 0 && r.Floor - f < 1;
    }
    assert SnapProgress(0.0, Initial).Floor == -1;
  }

  /** Flipping away from a non-negative progress lands on the next card's boundary. */
  lemma {:induction false} FinishSnap(cp: real)
    requires cp >= 0.0
    ensures SnapProgress(cp, Finished) == (IndexOfInteractiveView(cp) + 1) as real
  {
  }

  /** Cumulative progress after a pan ends: a whole number less than one card away. */
  function EndedProgress(count: CardCount, cp: real, velocityY: real): (r: real)
    ensures IsWhole(r)
    ensures cp - 1.0 <= r <= cp + 1.0 && r != cp
  {
    SnapProgress(cp, EndedOutcome(count, cp, velocityY))
  }

  /**
   * A negative progress always springs back, so pan ends with no moving sample
   * in between keep lowering it: from -1 to -2, then to -3.
   */
  lemma {:induction false} NegativeProgressDrifts(count: CardCount, cp: real, velocityY: real)
    requires cp < 0.0
    ensures EndedOutcome(count, cp, velocityY) == Initial
    ensures EndedProgress(count, cp, velocityY) < 0.0
    ensures IsWhole(cp) ==> EndedProgress(count, cp, velocityY) == cp - 1.0
  {
    CancelSnap(cp);
  }

  /**
   * From a cumulative progress in [0, count] a pan end lands on a whole number
   * in [-1, count - 1]; it lands on -1 exactly when it started from 0, and a
   * progress of exactly `count` always springs back.
   */
  lemma {:induction false} EndedProgressRange(count: CardCount, cp: real, velocityY: real)
    requires 0.0 <= cp <= count as real
    ensures var r := EndedProgress(count, cp, velocityY);
      IsWhole(r) && -1.0 <= r <= (count - 1) as real && (r == -1.0 <==> cp == 0.0)
    ensures cp == count as real ==> EndedOutcome(count, cp, velocityY) == Initial
  {
    var r := EndedProgress(count, cp, velocityY);
    var index := IndexOfInteractiveView(cp);
    if EndedOutcome(count, cp, velocityY) == Initial {
      assert r.Floor >= -1 && r.Floor < count;
      assert r == -1.0 ==> cp == 0.0;
    } else {
      FinishSnap(cp);
      assert index != count;
      assert index < count - 1;
    }
  }

  /**
   * The frame animation of the card after the interactive one, decided from
   * the progress before the snap: none when the interactive index is the last
   * one; otherwise the (saturated) next card moves to the top slot when the
   * interactive card flips away and back to its own slot when it springs back.
   */
  function NextViewAnimation(count: CardCount, cp: real, state: ViewState): (c: seq<Command>)
    ensures |c| <= 1
    ensures c == [] <==> IndexOfInteractiveView(cp) == count - 1
  {
    var indexOfNextView := IndexOfInteractiveView(cp) + 1;
    if indexOfNextView == count then []
    else
      var slot := if state == Finished then 0 else indexOfNextView;
      [AnimateFrame(ViewForIndex(count, indexOfNextView), slot)]
  }

  /**
   * Inside the stack the animated card is exactly the next one; at the full
   * progress `count` the last card is sent to slot count + 1, a frame past the
   * end of the stack.
   */
  lemma NextViewOfInteractive(count: CardCount, cp: real, state: ViewState)
    ensures 0.0 <= cp < count as real && IndexOfInteractiveView(cp) < count - 1 ==>
      var next := IndexOfInteractiveView(cp) + 1;
      NextViewAnimation(count, cp, state) ==
        [AnimateFrame(next, if state == Finished then 0 else next)]
    ensures NextViewAnimation(count, count as real, Initial) == [AnimateFrame(count - 1, count + 1)]
  {
  }

  /** Commands issued when a pan ends: the interactive card, then the next one. */
  function EndedCommands(count: CardCount, cp: real, velocityY: real): (c: seq<Command>)
    ensures 1 <= |c| <= 2
    ensures c[0].AnimateView? && c[0].velocity >= 0.0
    ensures c[0].view == ViewForIndex(count, IndexOfInteractiveView(cp))
    ensures c[0].state == EndedOutcome(count, cp, velocityY)
    ensures c[0].velocity * SpringReferenceDistance == Abs(velocityY)
    ensures c[1..] == NextViewAnimation(count, cp, c[0].state)
  {
    var state := EndedOutcome(count, cp, velocityY);
    var velocityOfSpring := InitialSpringVelocity(velocityY, SpringReferenceDistance);
    [AnimateView(ViewForIndex(count, IndexOfInteractiveView(cp)), state, velocityOfSpring)]
      + NextViewAnimation(count, cp, state)
  }

  // ---------------------------------------------------------------------------
  // The controller

  class ViewController {
    /** Number of cards, one per image. */
    const count: CardCount

    /**
     * Global progress: while card k is interactive it runs from k to k + 1.
     * It is not kept within [0, count].
     */
    var cumulativeProgress: real

    /** Touch point at which progress was last computed. */
    var pointOfLastCalculatedProgress: Point

    constructor (count: CardCount)
      ensures this.count == count
      ensures cumulativeProgress == 0.0 && pointOfLastCalculatedProgress == Origin
    {
      this.count := count;
      cumulativeProgress := 0.0;
      pointOfLastCalculatedProgress := Origin;
    }

    /** Flips the interactive card away without a gesture; there is no upper bound check. */
    method StartButtonPressed() returns (commands: seq<Command>)
      modifies this
      ensures commands ==
        [AnimateView(ViewForIndex(count, IndexOfInteractiveView(old(cumulativeProgress))), Finished, 0.0)]
      ensures cumulativeProgress == old(cumulativeProgress) + 1.0
      ensures pointOfLastCalculatedProgress == old(pointOfLastCalculatedProgress)
    {
      var viewToAnimate := ViewForIndex(count, IndexOfInteractiveView(cumulativeProgress));
      commands := [AnimateView(viewToAnimate, Finished, 0.0)];
      cumulativeProgress := cumulativeProgress + 1.0;
    }

    /** A pan begins: only the reference point moves. */
    method HandleBegan(location: Point)
      modifies this
      ensures pointOfLastCalculatedProgress == location
      ensures cumulativeProgress == old(cumulativeProgress)
    {
      pointOfLastCalculatedProgress := location;
    }

    /** A pan sample moved: accumulate its increment and update the interactive card. */
    method HandleChanged(location: Point) returns (commands: seq<Command>)
      modifies this
      ensures cumulativeProgress ==
        ChangedProgress(count, old(cumulativeProgress), old(pointOfLastCalculatedProgress), location)
      ensures cumulativeProgress >= 0.0
      ensures old(cumulativeProgress) <= count as real ==> cumulativeProgress <= count as real
      ensures pointOfLastCalculatedProgress == location
      ensures commands == [InteractiveViewUpdate(count, cumulativeProgress)]
    {
      var travelledDistance := DistanceToPoint(pointOfLastCalculatedProgress, location);
      var progressOfInteraction := ProgressForTravelledDistance(travelledDistance);
      if cumulativeProgress + progressOfInteraction >= 0.0 {
        if cumulativeProgress + progressOfInteraction <= count as real {
          cumulativeProgress := cumulativeProgress + progressOfInteraction;
        }
      } else {
        cumulativeProgress := 0.0;
      }
      var indexOfInteractiveView := IndexOfInteractiveView(cumulativeProgress);
      var interactiveView := ViewForIndex(count, indexOfInteractiveView);
      var progressOfInteractiveView := ProgressForViewWithIndex(indexOfInteractiveView, cumulativeProgress);
      commands := [SetVisual(interactiveView, UpdateInteractiveView(progressOfInteractiveView))];
      pointOfLastCalculatedProgress := location;
    }

    /** A pan ended: spring the interactive card back or flip it away, and snap the progress. */
    method HandleEnded(velocity: Point) returns (commands: seq<Command>)
      modifies this
      ensures cumulativeProgress == EndedProgress(count, old(cumulativeProgress), velocity.y)
      ensures pointOfLastCalculatedProgress == old(pointOfLastCalculatedProgress)
      ensures commands == EndedCommands(count, old(cumulativeProgress), velocity.y)
    {
      var direction := DirectionOfPan(velocity.y);
      var velocityOfTouch := velocity.y;
      var velocityOfSpring := InitialSpringVelocity(velocityOfTouch, SpringReferenceDistance);
      var indexOfViewToAnimate := IndexOfInteractiveView(cumulativeProgress);
      var viewToAnimate := ViewForIndex(count, indexOfViewToAnimate);
      var haveReachedLastView := indexOfViewToAnimate == count - 1;
      var local := ProgressForViewWithIndex(IndexOfInteractiveView(cumulativeProgress), cumulativeProgress);
      if ShouldFinishGesture(local, direction) || haveReachedLastView {
        commands := [AnimateView(viewToAnimate, Initial, velocityOfSpring)]
          + NextViewAnimation(count, cumulativeProgress, Initial);
        cumulativeProgress := cumulativeProgress - 1.0;
        cumulativeProgress := Ceil(cumulativeProgress) as real;
      } else {
        commands := [AnimateView(viewToAnimate, Finished, velocityOfSpring)]
          + NextViewAnimation(count, cumulativeProgress, Finished);
        cumulativeProgress := cumulativeProgress + 1.0;
        cumulativeProgress := cumulativeProgress.Floor as real;
      }
    }

    /**
     * Entry point of the pan gesture recognizer. The direction comes from the
     * vertical velocity; states other than Began, Changed and Ended do nothing.
     */
    method GestureRecognizerDidFire(state: GestureState, location: Point, velocity: Point)
      returns (commands: seq<Command>)
      modifies this
      ensures state == Began ==>
        cumulativeProgress == old(cumulativeProgress) &&
        pointOfLastCalculatedProgress == location && commands == []
      ensures state == Changed ==>
        cumulativeProgress ==
          ChangedProgress(count, old(cumulativeProgress), old(pointOfLastCalculatedProgress), location) &&
        pointOfLastCalculatedProgress == location &&
        commands == [InteractiveViewUpdate(count, cumulativeProgress)]
      ensures state == Ended ==>
        cumulativeProgress == EndedProgress(count, old(cumulativeProgress), velocity.y) &&
        pointOfLastCalculatedProgress == old(pointOfLastCalculatedProgress) &&
        commands == EndedCommands(count, old(cumulativeProgress), velocity.y)
      ensures state.Possible? || state.Cancelled? || state.Failed? ==>
        cumulativeProgress == old(cumulativeProgress) &&
        pointOfLastCalculatedProgress == old(pointOfLastCalculatedProgress) && commands == []
    {
      match state
      case Began =>
        HandleBegan(location);
        commands := [];
      case Ended =>
        commands := HandleEnded(velocity);
      case Changed =>
        commands := HandleChanged(location);
      case _ =>
        commands := [];
    }
  }

  /**
   * Ten cards, a pan that starts, starts again at the same point, drags 160
   * points down and ends moving downwards: the first card flips away and the
   * second becomes interactive.
   */
  method FlipFirstCard() {
    var controller := new ViewController(10);
    var commands := controller.GestureRecognizerDidFire(Began, Point(50.0, 100.0), Point(0.0, 0.0));
    commands := controller.GestureRecognizerDidFire(Began, Point(50.0, 100.0), Point(0.0, 0.0));
    assert controller.cumulativeProgress == 0.0;
    assert controller.pointOfLastCalculatedProgress == Point(50.0, 100.0);
    commands := controller.GestureRecognizerDidFire(Changed, Point(50.0, 260.0), Point(0.0, 300.0));
    assert controller.cumulativeProgress == 0.8;
    commands := controller.GestureRecognizerDidFire(Ended, Point(50.0, 260.0), Point(0.0, 300.0));
    assert controller.cumulativeProgress == 1.0;
    assert commands == [AnimateView(0, Finished, 3.0), AnimateFrame(1, 0)];
    assert IndexOfInteractiveView(controller.cumulativeProgress) == 1;
  }
}
