// The pure helpers of the card flipper: how a vertical drag becomes a progress
// increment, how the cumulative progress selects the interactive card and its
// local progress, the threshold rule applied when a drag ends, the spring
// velocity handed to the animator, and the visual state of a card.
// Float and CGFloat values are real numbers here; IEEE rounding is not modelled.

module Progress {

  /** Number of cards on the stack; the controller never has an empty stack. */
  type CardCount = n: int | 1 <= n witness 1

  /** Vertical distance that corresponds to one whole card flip. */
  const MaximumDistance: real := 200.0

  /** Local progress from which an upward drag no longer springs back. */
  const UpwardsThreshold: real := 0.7

  /** Local progress from which a downward drag no longer springs back. */
  const DownwardsThreshold: real := 0.4

  /** Direction of the pan at the moment of the sample, taken from the vertical velocity. */
  datatype Direction = Upwards | Downwards

  /** The two terminal states towards which a card is animated. */
  datatype ViewState = Finished | Initial

  /**
   * Visual state of a card: either the identity transform, or a rotation of
   * `angleOverPi`·π radians about the horizontal axis (seen through a fixed
   * perspective) together with the opacity `alpha`.
   */
  datatype Visual = Identity | Rotated(angleOverPi: real, alpha: real)

  function Min(a: real, b: real): real { if a <= b then a else b }

  function Max(a: real, b: real): real { if a <= b then b else a }

  function Abs(a: real): real { if a < 0.0 then -a else a }

  /** Swift's `ceil` on the reals, the mirror image of `Floor`. */
  function Ceil(r: real): (c: int)
    ensures c as real - 1.0 < r <= c as real
  {
    -((-r).Floor)
  }

  /** Whether a progress value lies on a card boundary. */
  predicate IsWhole(r: real) {
    r.Floor as real == r
  }

  /**
   * Progress increment for a vertical travel of `distance`: the travel as a
   * fraction of MaximumDistance, clamped to [-1, 1].
   */
  function ProgressForTravelledDistance(distance: real): (p: real)
    ensures -1.0 <= p <= 1.0
    ensures -MaximumDistance <= distance <= MaximumDistance ==> p * MaximumDistance == distance
    ensures distance > MaximumDistance ==> p == 1.0
    ensures distance < -MaximumDistance ==> p == -1.0
    ensures p < 0.0 <==> distance < 0.0
  {
    Min(1.0, Max(-1.0, distance / MaximumDistance))
  }

  /**
   * Index of the interactive card: the whole part of the cumulative progress,
   * never negative, and with no upper cap.
   */
  function IndexOfInteractiveView(cumulativeProgress: real): (index: int)
    ensures index >= 0
    ensures cumulativeProgress >= 0.0 ==>
      index as real <= cumulativeProgress < index as real + 1.0
    ensures cumulativeProgress < 1.0 ==> index == 0
  {
    var index := cumulativeProgress.Floor;
    if index < 0 then 0 else index
  }

  /** A larger cumulative progress never selects an earlier card. */
  lemma IndexIsMonotonic(cp: real, cp': real)
    requires cp <= cp'
    ensures IndexOfInteractiveView(cp) <= IndexOfInteractiveView(cp')
  {
  }

  /**
   * Saturating lookup of a card: the first card for a negative index, the last
   * card for an index past the end, and otherwise the card at that index.
   */
  function ViewForIndex(count: CardCount, index: int): (view: int)
    ensures 0 <= view < count
    ensures 0 <= index < count ==> view == index
    ensures index < 0 ==> view == 0
    ensures index >= count ==> view == count - 1
  {
    if index < 0 then 0
    else if index > count - 1 then count - 1
    else index
  }

  /** Local progress of card `index`: how far the cumulative progress has moved past it. */
  function ProgressForViewWithIndex(index: int, cumulativeProgress: real): (p: real)
    ensures index as real + p == cumulativeProgress
  {
    cumulativeProgress - index as real
  }

  /**
   * The card selected by a non-negative cumulative progress has a local
   * progress in [0, 1); a negative cumulative progress selects card 0 with a
   * negative local progress.
   */
  lemma LocalProgressOfInteractiveView(cp: real)
    ensures cp >= 0.0 ==>
      0.0 <= ProgressForViewWithIndex(IndexOfInteractiveView(cp), cp) < 1.0
    ensures cp < 0.0 ==>
      ProgressForViewWithIndex(IndexOfInteractiveView(cp), cp) == cp
  {
  }

  /**
   * Selecting a card from a cumulative progress in [0, count] and looking it up
   * gives the whole part of the progress, held to the last card.
   */
  lemma ViewOfInteractiveIndex(count: CardCount, cp: real)
    requires 0.0 <= cp <= count as real
    ensures ViewForIndex(count, IndexOfInteractiveView(cp)) ==
      if cp.Floor < count then cp.Floor else count - 1
    ensures cp == count as real ==> IndexOfInteractiveView(cp) == count
  {
  }

  /** Initial velocity of a spring animation for a gesture velocity, relative to `distance`. */
  function InitialSpringVelocity(velocityOfGR: real, distance: real): (v: real)
    requires distance != 0.0
    ensures v >= 0.0
    ensures v * Abs(distance) == Abs(velocityOfGR)
  {
    Abs(velocityOfGR / distance)
  }

  /** The pan goes upwards exactly when its vertical velocity is negative. */
  function DirectionOfPan(velocityY: real): (d: Direction)
    ensures d == Upwards <==> velocityY < 0.0
  {
    if velocityY < 0.0 then Upwards else Downwards
  }

  /**
   * The threshold rule applied when a drag ends. Despite its name a `true`
   * result makes the card spring back: it holds when the local progress is
   * below the threshold of the drag's direction.
   */
  function ShouldFinishGesture(progress: real, direction: Direction): (r: bool)
    ensures r <==> progress < (if direction == Upwards then UpwardsThreshold else DownwardsThreshold)
  {
    if direction == Upwards then progress < 0.7 else progress < 0.4
  }

  /**
   * The rule is monotonic in the progress, and an upward drag needs more
   * progress than a downward one before it stops springing back.
   */
  lemma ShouldFinishGestureIsMonotonic(p: real, p': real, direction: Direction)
    requires p <= p'
    ensures ShouldFinishGesture(p', direction) ==> ShouldFinishGesture(p, direction)
    ensures ShouldFinishGesture(p, Downwards) ==> ShouldFinishGesture(p, Upwards)
    ensures p < DownwardsThreshold ==> ShouldFinishGesture(p, direction)
    ensures p >= UpwardsThreshold ==> !ShouldFinishGesture(p, direction)
  {
  }

  /**
   * Visual state of a card at local progress `progress`: the identity for a
   * progress outside [0, 1] (the defensive guard), and otherwise a rotation by
   * -progress·π with opacity 1 - progress.
   */
  function UpdateInteractiveView(progress: real): (v: Visual)
    ensures v == Identity <==> !(0.0 <= progress <= 1.0)
    ensures v.Rotated? ==> v.angleOverPi == -progress && v.alpha + progress == 1.0
    ensures v.Rotated? ==> 0.0 <= v.alpha <= 1.0
  {
    if !(0.0 <= progress && progress <= 1.0) then Identity
    else Rotated(-progress, 1.0 - progress)
  }

  /**
   * Visual state at the end of an animation towards `state`: upright and opaque
   * for Initial, turned half a revolution and transparent for Finished.
   */
  function TargetVisual(state: ViewState): (v: Visual)
    ensures state == Initial ==> v == Rotated(0.0, 1.0)
    ensures state == Finished ==> v == Rotated(-1.0, 0.0)
  {
    UpdateInteractiveView(if state == Initial then 0.0 else 1.0)
  }
}
