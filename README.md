# DoubleTapButton interaction model

`DoubleTapButton` is a UIKit view with two stacked buttons and a label
behind them. The user drags the primary button off the frame (or taps it,
in tap mode) to uncover the confirm button; a touch on the confirm button
runs the caller's `functionToCall`, the label shows the success or error
appearance and the confirm button slides out too; after a failure a block
queued on the main queue later slides both buttons back to their docked
centre.

This project models that interaction state machine in Dafny:

- `geometry.dfy` — `Point` (CGPoint with exact `real` coordinates), Swift's
  `min`/`max` and the `max(lo, min(hi, v))` clamp built from them.
- `double_tap_button.dfy` — module `DoubleTap`:
  - a value-level specification: a `Snapshot` of the state (both centres,
    the captured `originalCenter`, the label appearance, the number of
    queued revert blocks, the number of animations started) and one
    function per handler (`LaidOut`, `HandlePan`, `OutOfFrame`,
    `ToOriginalPosition`, `ConfirmTapped`, `Reverted`), folded over a
    stream of UI events by `Step` and `Run`;
  - the class `DoubleTapButton`, whose fields are that state and whose
    methods update them in place as the Swift handlers do. Each method
    requires `Valid()`, keeps it, and its postconditions say that its new
    state is the matching function applied to the old state.
- `properties.dfy` — lemmas over whole interactions:
  - drag sessions stay clamped and move one coordinate;
  - releasing ejects or docks;
  - failed confirms stack their reverts, and the reverts drain the queue;
  - after a success with nothing queued, the main queue changes nothing;
  - the docked centre is stable.

  It ends with a small client of the class.

Modelling choices:

- Every `UIView.animateWithDuration` block is its end value, assigned at
  once. `animations` counts the blocks started, which makes "docking an
  element that is already docked starts no animation" a checkable fact.
- `functionToCall` is the `accepted` parameter of `ConfirmTap` and of the
  `ConfirmTouchDown` event.
- `dispatch_after` is a counter of queued reverts. The `RevertFires` event
  (class method `FireRevert`) runs one of them, with no notion of time.
- `originalCenter` is an `Option`: the Swift field is an implicitly
  unwrapped optional that is nil until the first `layoutSubviews`. The
  handlers are attached in `layoutSubviews`, so `Step` drops every touch,
  pan and revert that arrives before the first layout. The class handlers
  require a captured centre for the same reason.
- Bounds width and height are constants of an instance: they are lazy in
  Swift and read once. `slidesHorizontally` is a constant of the instance
  too (see "Left out").
  `horizontalSlide`/`verticalSlide` are `-width/2` and `-height/2`.

Source quirks kept as written:

- The vertical drag clamps with the bounds width, not the height.
- `isHalfOutOfFrame` tests x <= 0 or y <= 0 whatever the slide axis, so a
  centre exactly on an edge counts as out.
- Ejecting changes only the slide-axis coordinate, while docking restores
  the whole point.
- `layoutSubviews` frames both buttons at (0, 0, w, h). So each layout pass
  re-docks both buttons, and it recomputes `originalCenter` every time
  (to the same value, since the bounds are fixed) rather than once.
- The label is first built with the success appearance.

## Model

| member | source | states |
|---|---|---|
| Geometry.Min | DoubleTapButton/DoubleTapButton.swift:318-319 | the result is a lower bound of both arguments and is one of them |
| Geometry.Max | DoubleTapButton/DoubleTapButton.swift:318-319 | the result is an upper bound of both arguments and is one of them |
| Geometry.Clamp | DoubleTapButton/DoubleTapButton.swift:318-319 | for lo <= hi the result lies in [lo, hi], equals v exactly when v is in range, and is the nearer bound otherwise; for hi < lo the lower bound wins |
| DoubleTap.LaidOutCenter | DoubleTapButton/DoubleTapButton.swift:262-263 | the captured centre is half the bounds width and height, and for positive bounds it is not past the threshold |
| DoubleTap.HorizontalSlide | DoubleTapButton/DoubleTapButton.swift:84-86 | the horizontal eject target is minus half the bounds width, negative for a positive width |
| DoubleTap.VerticalSlide | DoubleTapButton/DoubleTapButton.swift:89-91 | the vertical eject target is minus half the bounds height, negative for a positive height |
| DoubleTap.HalfOutOfFrame | DoubleTapButton/DoubleTapButton.swift:336-338 | true when x <= 0 or when y <= 0 (closed boundary, whatever the slide axis), false when both are positive |
| DoubleTap.DoubleTapButton.IsHalfOutOfFrame | DoubleTapButton/DoubleTapButton.swift:336-338 | in a control with positive bounds, a button sitting at the captured originalCenter is never half out of frame |
| DoubleTap.DragHorizontally | DoubleTapButton/DoubleTapButton.swift:312-322 | y is unchanged; for width >= 0 x lies within [orig.x - width, orig.x + width], follows the translation when that stays in range and sticks to the bound it overshoots otherwise |
| DoubleTap.DragVertically | DoubleTapButton/DoubleTapButton.swift:324-334 | x is unchanged; for extent >= 0 y lies within [orig.y - extent, orig.y + extent] and follows the translation inside that range (the control passes the bounds width as extent) |
| DoubleTap.OutOfFramePosition | DoubleTapButton/DoubleTapButton.swift:369-378 | horizontally x becomes -width/2 and y is kept, vertically y becomes -height/2 and x is kept; for non-negative bounds the ejected centre is past the threshold |
| DoubleTap.LaidOut | DoubleTapButton/DoubleTapButton.swift:260-267 | both buttons sit at the centre of (0, 0, w, h), which becomes originalCenter; label, queued reverts and animations are untouched |
| DoubleTap.OutOfFrame | DoubleTapButton/DoubleTapButton.swift:369-378 | the element moves to its ejected position, the other button and everything else stay, exactly one animation is started |
| DoubleTap.ToOriginalPosition | DoubleTapButton/DoubleTapButton.swift:381-387 | afterwards the element is at originalCenter and the other button is unmoved; an element already docked leaves the whole state unchanged with no animation; otherwise one animation is started |
| DoubleTap.HandlePan | DoubleTapButton/DoubleTapButton.swift:287-310 | .Changed moves only the primary button by a drag step on the active axis (width-clamped on both axes); .Ended ejects it when past the threshold and docks it otherwise; every other state changes nothing |
| DoubleTap.ConfirmTapped | DoubleTapButton/DoubleTapButton.swift:343-366 | the label shows success or error as the predicate said, the confirm button is ejected, the primary button and originalCenter stay, and a failure adds exactly one queued revert to those already queued |
| DoubleTap.Reverted | DoubleTapButton/DoubleTapButton.swift:361-364 | one queued revert is consumed, both buttons are at originalCenter, the label is unchanged, and one animation is started per button that was not already docked |
| DoubleTap.Step | DoubleTapButton/DoubleTapButton.swift:260-281 | an event preserves Consistent; anything but a layout before the first layout changes nothing; a revert with none queued changes nothing |
| DoubleTap.Run | DoubleTapButton/DoubleTapButton.swift:260-263 | every stream of events from a consistent state ends in a consistent state (originalCenter is the bounds centre once captured, and reverts are queued only after layout) |
| DoubleTap.DoubleTapButton.constructor | DoubleTapButton/DoubleTapButton.swift:238-247 | the new control has the given bounds and axis, zero-frame buttons, no originalCenter, the success label, nothing queued |
| DoubleTap.DoubleTapButton.LayoutSubviews | DoubleTapButton/DoubleTapButton.swift:260-267 | the new state is LaidOut of the old one and Valid is kept |
| DoubleTap.DoubleTapButton.SlideElementHorizontally | DoubleTapButton/DoubleTapButton.swift:312-322 | only the element's centre changes, to DragHorizontally of its old centre with the bounds width |
| DoubleTap.DoubleTapButton.SlideElementVertically | DoubleTapButton/DoubleTapButton.swift:324-334 | only the element's centre changes, to DragVertically of its old centre with the bounds width as extent |
| DoubleTap.DoubleTapButton.SlideElementOutOfFrame | DoubleTapButton/DoubleTapButton.swift:369-378 | once originalCenter is captured (the tap action is attached in the first layout), the new state is OutOfFrame of the old one and Valid is kept |
| DoubleTap.DoubleTapButton.SlideElementToOriginalPosition | DoubleTapButton/DoubleTapButton.swift:381-387 | the new state is ToOriginalPosition of the old one and Valid is kept |
| DoubleTap.DoubleTapButton.PrimaryHandlePan | DoubleTapButton/DoubleTapButton.swift:287-310 | the new state is HandlePan of the old one and Valid is kept |
| DoubleTap.DoubleTapButton.ConfirmTap | DoubleTapButton/DoubleTapButton.swift:343-366 | the new state is ConfirmTapped of the old one and Valid is kept |
| DoubleTap.DoubleTapButton.FireRevert | DoubleTapButton/DoubleTapButton.swift:361-364 | the new state is Reverted of the old one and Valid is kept |
| DoubleTapProperties.DragSessionStaysClamped | DoubleTapButton/DoubleTapButton.swift:312-334 | any run of .Changed events moves only the primary button and only on the slide axis; after at least one step the active coordinate is within one bounds width of the docked one, on either axis |
| DoubleTapProperties.PanSessionOutcome | DoubleTapButton/DoubleTapButton.swift:299-306 | a drag session followed by .Ended ejects the primary button if the dragged centre is past the threshold and docks it otherwise |
| DoubleTapProperties.HorizontalPanEndsEjectedOrDocked | DoubleTapButton/DoubleTapButton.swift:287-310 | for boundsWidth >= 0 and boundsHeight > 0, a horizontal session started docked ends with the primary button at (-w/2, h/2) when it was dragged to x <= 0, back at the docked centre otherwise, with nothing else changed but the animation count |
| DoubleTapProperties.VerticalPanEndsEjectedOrDocked | DoubleTapButton/DoubleTapButton.swift:287-310 | the vertical counterpart, for boundsWidth > 0 and boundsHeight >= 0: (w/2, -h/2) when dragged to y <= 0, docked otherwise |
| DoubleTapProperties.ThresholdIsHalfTheWidth | DoubleTapButton/DoubleTapButton.swift:336-338 | from the docked centre one horizontal step crosses the threshold exactly when it moves left by at least half the width |
| DoubleTapProperties.ThresholdIgnoresSlideAxis | DoubleTapButton/DoubleTapButton.swift:336-338 | with vertical sliding, a primary centre at x = 0 counts as out (closed boundary, either coordinate) and is ejected vertically on release |
| DoubleTapProperties.OtherPanStatesChangeNothing | DoubleTapButton/DoubleTapButton.swift:308 | any run of pan events in states other than .Changed and .Ended leaves the control unchanged |
| DoubleTapProperties.DockingIsIdempotent | DoubleTapButton/DoubleTapButton.swift:381-387 | docking twice is the same as docking once |
| DoubleTapProperties.OriginalCenterIsStable | DoubleTapButton/DoubleTapButton.swift:260-263 | once captured, originalCenter is the same after any stream of events |
| DoubleTapProperties.FailedConfirmsStack | DoubleTapButton/DoubleTapButton.swift:352-364 | n failed confirms in a row queue exactly n more reverts, keep the error appearance and leave the primary button where it was |
| DoubleTapProperties.RevertsDrainQueue | DoubleTapButton/DoubleTapButton.swift:361-364 | k queued reverts firing consume k entries, keep the label, and after at least one both buttons are docked |
| DoubleTapProperties.FailedConfirmThenRevert | DoubleTapButton/DoubleTapButton.swift:352-364 | a failed confirm and its revert leave the error appearance, both buttons docked and the queue as before |
| DoubleTapProperties.SuccessIsTerminal | DoubleTapButton/DoubleTapButton.swift:345-350 | a successful confirm shows success, ejects the confirm button, queues nothing, and later revert events with none queued change nothing |
| DoubleTapProperties.NothingBeforeLayout | DoubleTapButton/DoubleTapButton.swift:269-280 | before the first layout no handler is attached, so any events other than layout leave the control unchanged |
| DoubleTapProperties.ZeroDragIsNoOp | DoubleTapButton/DoubleTapButton.swift:318-321 | after a drag step, a zero translation leaves the control unchanged |

## Left out

- Styling properties and their observers are not modelled: border radius,
  width and colour, the button and label texts and colours, and
  `bgImageName`. They only push values into UIKit views and layers, and
  `bgImageName` also does an image resource lookup. The label is reduced
  to which appearance it shows.
- Construction plumbing is not modelled: the lazy creation of the
  subviews, `setup`/`addSubview`, and `clipsToBounds`.
- The `addTarget`/`UIPanGestureRecognizer` registration in `layoutSubviews`
  is only partly modelled. Only its effect that no handler runs before the
  first layout is kept. Three things are not:
  - the choice between tap and pan mode by `reactsToTap`, since both
    `Pan` and `PrimaryTouchDown` events are accepted;
  - a recognizer added again on every layout pass;
  - `maximumNumberOfTouches`.
- Animation timing is not modelled: `animationDuration`, interpolation, and
  the retargeting of an animation still running. Only end positions are.
- The 2-second `dispatch_after` delay and the main queue are not modelled.
  A queued revert is an event the environment may fire at any later point.
- The body of `functionToCall` is outside this model. It is supplied by the
  caller; its result is an input, and an exception it raises is not modelled.
- CGFloat rounding is not modelled. Coordinates are exact reals; the source
  only adds, halves, compares and clamps them.
- DoubleTap.DoubleTapButton: `slidesHorizontally` is a `const` of the
  instance, so changing the axis after construction is not modelled, though
  the Swift property is a settable variable read on every drag and eject.
- The bounds are fixed at construction. The constructor's width and height
  stand for the lazy `boundsWidth`/`boundsHeight`, which are first read in
  the first `layoutSubviews` pass and never re-read. A later change of the
  view's bounds is not modelled.
- Events are not restricted by visibility or z-order. Any touch or pan
  reaches its handler at any time after the first layout. In the source, the
  docked primary button covers the confirm button, since it is added last,
  and `clipsToBounds` hides an ejected button.
