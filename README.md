# ViewFlipper: the pan-gesture state machine

ViewFlipper shows a stack of image cards. The user flips cards down one at a time by dragging
vertically. `ViewController` turns the stream of pan samples into two things:

- a *cumulative progress* (a `Float`), whose whole part selects the interactive card;
- a *local progress* for that card, which drives the card's rotation and opacity.

When the pan ends, the controller decides whether the card springs back or flips away. It then
snaps the cumulative progress to a whole number. A start button flips the current card without
any gesture.

The model has three modules:

- `Geometry` (`geometry.dfy`) holds the touch point and the vertical distance between two
  samples. This is the `CGPoint` extension.
- `Progress` (`progress.dfy`) holds the pure helpers: the distance-to-progress clamp, index
  selection, the saturating card lookup, local progress, the spring-velocity conversion, the
  threshold rule and the visual state of a card.
- `Controller` (`controller.dfy`) holds the commands issued to the views and one specification
  function per gesture event (`ChangedProgress`, `EndedOutcome`, `SnapProgress`,
  `NextViewAnimation`, `EndedCommands`). It also holds the class `ViewController`. The class's
  two mutable fields, `cumulativeProgress` and `pointOfLastCalculatedProgress`, are updated step
  by step, as in the source.

`Float` and `CGFloat` are modelled as `real`. Cards are their integer indices. The card count
(`images.count`, ten in the app) is a constructor parameter of at least 1. Animations and view
updates are returned as `Command` values in the order the source issues them:

- `SetVisual(view, visual)`: an immediate change of look. A rotation sets the transform and the
  opacity; `Identity`, the guard's reset, sets only the transform and leaves the opacity as it was;
- `AnimateView(view, state, velocity)`: a spring animation to `Initial` or `Finished`, whose end
  look is `TargetVisual(state)`;
- `AnimateFrame(view, slot)`: a spring animation into the frame of a stack slot.

The comment on `cumulativeProgress` (ViewController.swift:28) suggests that the progress stays
between 0 and the card count. The code does not keep it there, and neither does the model:

- springing back from exactly 0 gives -1 (`CancelSnap`, `EndedProgressRange`);
- a negative progress always springs back, so further pan ends with no moving sample in between
  go on to -2, -3 and lower (`NegativeProgressDrifts`);
- the start button adds 1 with no bound check;
- a moving sample that would pass `count` leaves the progress unchanged instead of clamping it.

The interactive index is never capped at `count - 1`: a progress of exactly `count` selects index
`count`, with local progress 0. This has two effects:

- while the user drags the last card to the end, a moving sample that reaches `count` shows that
  card upright and opaque (`InteractiveViewUpdate`);
- ending a pan at that progress sends the last card to slot `count + 1` (`NextViewOfInteractive`).

 The threshold function keeps its source name, `ShouldFinishGesture`,
although a `true` result makes the card spring back.

## Model

| member | source | states |
|---|---|---|
| Geometry.DistanceToPoint | Project/ViewFliperTest/ViewController.swift:360-365 | the distance is the signed vertical displacement from the stored point to the new one; it is positive exactly when the new point is lower |
| Geometry.DistanceIsVerticalAndAdditive | Project/ViewFliperTest/ViewController.swift:360-365 | the horizontal coordinate plays no part; distances are antisymmetric and add up along a path |
| Progress.Ceil | Project/ViewFliperTest/ViewController.swift:136 | `ceil` gives the least whole number not below its argument |
| Progress.ProgressForTravelledDistance | Project/ViewFliperTest/ViewController.swift:190-200 | the increment lies in [-1, 1]; it is distance/200 when the distance is within ±200, and 1 or -1 beyond that; its sign is the distance's sign |
| Progress.IndexOfInteractiveView | Project/ViewFliperTest/ViewController.swift:302-310 | the index is never negative; for a non-negative progress it is the floor (the whole number k with k <= cp < k+1), with no upper cap; below 1 it is 0 |
| Progress.IndexIsMonotonic | Project/ViewFliperTest/ViewController.swift:302-310 | a larger cumulative progress never selects an earlier card |
| Progress.ViewForIndex | Project/ViewFliperTest/ViewController.swift:279-293 | the lookup always yields a card: the first for a negative index, the last for an index past the end, the card itself otherwise |
| Progress.ProgressForViewWithIndex | Project/ViewFliperTest/ViewController.swift:320-324 | the local progress is what remains of the cumulative progress after the card's index |
| Progress.LocalProgressOfInteractiveView | Project/ViewFliperTest/ViewController.swift:302-324 | the card selected by a non-negative progress has a local progress in [0, 1); a negative progress gives card 0 a negative local progress |
| Progress.ViewOfInteractiveIndex | Project/ViewFliperTest/ViewController.swift:285-310 | for a progress in [0, count], looking up the selected index gives the floor of the progress held to count - 1; at exactly count the raw index is count |
| Progress.InitialSpringVelocity | Project/ViewFliperTest/ViewController.swift:326-338 | the spring velocity is non-negative, and times the reference distance it equals the gesture speed |
| Progress.DirectionOfPan | Project/ViewFliperTest/ViewController.swift:111 | the pan is Upwards exactly when the vertical velocity is negative |
| Progress.ShouldFinishGesture | Project/ViewFliperTest/ViewController.swift:340-348 | true exactly when the local progress is below 0.7 for an upward pan, or below 0.4 for a downward one |
| Progress.ShouldFinishGestureIsMonotonic | Project/ViewFliperTest/ViewController.swift:340-348 | more progress never turns a finish back into a cancel; an upward pan cancels whenever a downward one would; below 0.4 every pan cancels, and from 0.7 no pan does |
| Progress.UpdateInteractiveView | Project/ViewFliperTest/ViewController.swift:208-226 | a progress outside [0, 1] gives the identity transform; otherwise the card turns by -progress·π and its opacity, 1 - progress, lies in [0, 1] |
| Progress.TargetVisual | Project/ViewFliperTest/ViewController.swift:235-246 | animating to Initial ends upright and opaque; animating to Finished ends turned by -π and transparent |
| Controller.Increment | Project/ViewFliperTest/ViewController.swift:153-154 | a sample's increment lies in [-1, 1] and is the vertical travel over 200 when that travel is within ±200 |
| Controller.ChangedProgress | Project/ViewFliperTest/ViewController.swift:153-167 | a sum below 0 gives 0, a sum within [0, count] is taken, and a sum above count leaves the progress unchanged; the result is never negative and stays at most count if it was |
| Controller.InteractiveViewUpdate | Project/ViewFliperTest/ViewController.swift:169-174 | for a non-negative progress the guard never fires: the selected card is the floor held to count - 1, shown at local progress cp - floor(cp) (turned by -local·π, opacity 1 - local, in (0, 1]); at exactly count the last card is shown upright and opaque; a negative progress would give card 0 the identity |
| Controller.ChangedKeepsGuardQuiet | Project/ViewFliperTest/ViewController.swift:153-174 | after a moving sample the update of the interactive card is always a rotation, never the identity of the guard |
| Controller.ReplayBounds | Project/ViewFliperTest/ViewController.swift:152-176 | after any run of moving samples the progress is non-negative, and it is at most count if it started so |
| Controller.ReplayFollowsTouch | Project/ViewFliperTest/ViewController.swift:20-29 | when no sample jumps more than 200 and no bound is hit, the progress moves by the total vertical travel over 200, however the travel was split into samples |
| Controller.EndedOutcome | Project/ViewFliperTest/ViewController.swift:111-127 | the card springs back exactly when (Upwards and local < 0.7) or (Downwards and local < 0.4) or the index is count - 1; otherwise it flips away |
| Controller.CompletionRuleTable | Project/ViewFliperTest/ViewController.swift:119-127 | on ten cards: Upwards cancels at 0.65 and finishes at 0.75; Downwards cancels at 0.35 and finishes at 0.45; the last card cancels at 0.9 Downwards; at 0.5 a zero velocity counts as Downwards and finishes, while a negative one cancels |
| Controller.SnapProgress | Project/ViewFliperTest/ViewController.swift:126-149 | the progress snaps to a whole number: the one in [cp - 1, cp) on cancel, the one in (cp, cp + 1] on finish |
| Controller.CancelSnap | Project/ViewFliperTest/ViewController.swift:135-136 | a cancel gives the floor of a fractional progress, but cp - 1 for a whole one, so 0 becomes -1 |
| Controller.FinishSnap | Project/ViewFliperTest/ViewController.swift:147-148 | a finish from a non-negative progress lands on the interactive index + 1 |
| Controller.EndedProgressRange | Project/ViewFliperTest/ViewController.swift:116-149 | from a progress in [0, count], a pan end lands on a whole number in [-1, count - 1], and on -1 exactly when it started at 0; a progress of count always cancels |
| Controller.EndedProgress | Project/ViewFliperTest/ViewController.swift:126-149 | a pan end always moves the progress to a different whole number at most one card away |
| Controller.NegativeProgressDrifts | Project/ViewFliperTest/ViewController.swift:127-136 | a negative progress always springs back and stays negative; from a whole negative progress it drops by exactly one card |
| Controller.NextViewAnimation | Project/ViewFliperTest/ViewController.swift:252-275 | at most one frame animation is issued, and none exactly when the interactive index is count - 1 |
| Controller.NextViewOfInteractive | Project/ViewFliperTest/ViewController.swift:252-265 | inside the stack the next card moves to slot 0 on Finished and to its own slot on cancel; at progress count the last card goes to slot count + 1 |
| Controller.EndedCommands | Project/ViewFliperTest/ViewController.swift:116-144 | a pan end first animates the card chosen by the index before the snap, to the decided state, with a non-negative velocity that is the gesture speed over 100; what follows is exactly the next card's animation for that outcome, from the progress before the snap |
| Controller.ViewController.constructor | Project/ViewFliperTest/ViewController.swift:20-35 | a new controller starts with progress 0 and the stored point at the origin |
| Controller.ViewController.StartButtonPressed | Project/ViewFliperTest/ViewController.swift:95-101 | Finished is issued with velocity 0 for the card of the current index, and the progress grows by exactly 1 with no bound check; the stored point is unchanged |
| Controller.ViewController.HandleBegan | Project/ViewFliperTest/ViewController.swift:114-115 | only the stored point changes, so repeating Began at the same point gives the same state |
| Controller.ViewController.HandleChanged | Project/ViewFliperTest/ViewController.swift:152-176 | the progress becomes `ChangedProgress` of the old state, non-negative and at most count if it was; the stored point becomes the touch; one view update is issued for the new progress |
| Controller.ViewController.HandleEnded | Project/ViewFliperTest/ViewController.swift:116-149 | the progress becomes the snap of the decided outcome; the stored point is untouched; the commands come from the progress before the snap |
| Controller.ViewController.GestureRecognizerDidFire | Project/ViewFliperTest/ViewController.swift:109-181 | Began, Changed and Ended go to their handlers; every other recognizer state changes nothing and issues nothing |

`Replay`, `PathEnd`, `SmallSteps` and `StaysWithinStack` are helpers for the lemmas about runs of
samples. The method `FlipFirstCard` is a worked scenario: ten cards, a drag of 160 points
downwards, and a pan end that flips the first card away.

## Left out

- The UIKit plumbing is not modelled: `viewDidLoad`, `didReceiveMemoryWarning`, building the
  gesture recognizer and reading location and velocity from it. Location and velocity are
  parameters of `GestureRecognizerDidFire`.
- View creation and layout are not modelled: `prepareinteractiveViews` (image views, anchor
  point, z-position) and the pixel arithmetic of `frameForViewAtIndex`. Frames appear only as
  the slot index of `AnimateFrame`.
- `CATransform3D` perspective and `UIView.animateWithDuration` are library calls. Their
  durations, damping ratios, options and completion blocks are not modelled; each animation is
  an opaque `Command`. The frame animation's fixed initial velocity of 1 is not recorded.
- The diagnostic `print` in the guard of `updateInteractiveView` is left out; only the reset to
  the identity is modelled.
- Image loading is left out; only the card count remains, as a parameter.
- IEEE-754 `Float`/`CGFloat` rounding, conversion and overflow are not modelled. `Int(floor(x))`
  trapping on values outside the `Int` range is not modelled either.
- InitialSpringVelocity: requires a non-zero distance, so IEEE division by zero (infinity or NaN)
  is not modelled. The only caller passes 100.
