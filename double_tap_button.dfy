/**
 The interaction state machine of the `DoubleTapButton` control: a primary
 button the user drags (or taps) out of the frame to uncover a confirm
 button, a confirm button that runs the caller's predicate, and a status
 label behind both that shows the predicate's outcome.

 The first half of the module is the specification on values: a `Snapshot`
 of the control's state and one function per handler, each saying what the
 handler leaves behind, with `Step`/`Run` folding a stream of UI events over
 them. The second half is the control itself, a class whose methods update
 its fields in place as the Swift handlers do and are proved against those
 functions. Every animation is modelled by its end value, assigned at once.
 */
module DoubleTap {
  import opened Geometry

  datatype Option<T> = None | Some(value: T)

  /** The two slidable subviews. */
  datatype Element = PrimaryButton | ConfirmButton

  /** The label's appearance: success or error text and colours. */
  datatype LabelAppearance = ShowsSuccess | ShowsError

  /** The states a `UIPanGestureRecognizer` reports to its action. */
  datatype GestureState = Possible | Began | Changed | Ended | Cancelled | Failed

  /** What the embedding view fixes for an instance. */
  datatype Config = Config(boundsWidth: real, boundsHeight: real, slidesHorizontally: bool)

  /**
   Everything the handlers read or write. `originalCenter` is `None` until
   the first layout pass (the Swift field is an implicitly unwrapped
   optional); `pendingReverts` counts the deferred revert blocks queued by
   failed confirms and not yet run; `animations` counts the animation blocks
   started, so that "no animation is started" can be stated.
   */
  datatype Snapshot = Snapshot(
    primary: Point,
    confirm: Point,
    originalCenter: Option<Point>,
    appearance: LabelAppearance,
    pendingReverts: nat,
    animations: nat)

  /** The UI events that reach the control's handlers. */
  datatype Event =
    | Layout                            // the system calls layoutSubviews
    | Pan(state: GestureState, translation: Point)  // the pan recognizer on the primary button fires
    | PrimaryTouchDown                  // a touch-down on the primary button, when it reacts to taps
    | ConfirmTouchDown(accepted: bool)  // a touch-down on the confirm button; `accepted` is what functionToCall returns
    | RevertFires                       // the main queue runs one queued revert block

  function Other(e: Element): Element {
    match e
    case PrimaryButton => ConfirmButton
    case ConfirmButton => PrimaryButton
  }

  function CenterOf(s: Snapshot, e: Element): Point {
    match e
    case PrimaryButton => s.primary
    case ConfirmButton => s.confirm
  }

  function WithCenter(s: Snapshot, e: Element, p: Point): (r: Snapshot)
    ensures CenterOf(r, e) == p && CenterOf(r, Other(e)) == CenterOf(s, Other(e))
  {
    match e
    case PrimaryButton => s.(primary := p)
    case ConfirmButton => s.(confirm := p)
  }

  /** The centre of the frame (0, 0, width, height) every subview gets on layout. */
  function LaidOutCenter(cfg: Config): (c: Point)
    ensures 2.0 * c.x == cfg.boundsWidth && 2.0 * c.y == cfg.boundsHeight
    ensures cfg.boundsWidth > 0.0 && cfg.boundsHeight > 0.0 ==> !HalfOutOfFrame(c)
  {
    Point(cfg.boundsWidth / 2.0, cfg.boundsHeight / 2.0)
  }

  /** `horizontalSlide`: the x an ejected element is sent to. */
  function HorizontalSlide(cfg: Config): (x: real)
    ensures 2.0 * x == -cfg.boundsWidth
    ensures cfg.boundsWidth > 0.0 ==> x < 0.0
  {
    -cfg.boundsWidth / 2.0
  }

  /** `verticalSlide`: the y an ejected element is sent to. */
  function VerticalSlide(cfg: Config): (y: real)
    ensures 2.0 * y == -cfg.boundsHeight
    ensures cfg.boundsHeight > 0.0 ==> y < 0.0
  {
    -cfg.boundsHeight / 2.0
  }

  // ---------------------------------------------------------------------
  // Point-level behaviour of the handlers

  /**
   One horizontal drag step: x follows the incremental translation but is
   kept within one bounds width of the docked x; y is left alone.
   */
  function DragHorizontally(center: Point, origin: Point, width: real, translation: Point): (r: Point)
    ensures r.y == center.y
    ensures width >= 0.0 ==> origin.x - width <= r.x <= origin.x + width
    ensures width >= 0.0 && origin.x - width <= center.x + translation.x <= origin.x + width
      ==> r.x == center.x + translation.x
    ensures width >= 0.0 && center.x + translation.x < origin.x - width ==> r.x == origin.x - width
    ensures width >= 0.0 && origin.x + width < center.x + translation.x ==> r.x == origin.x + width
  {
    Point(Clamp(origin.x - width, origin.x + width, center.x + translation.x), center.y)
  }

  /**
   One vertical drag step: y follows the translation, kept within `extent`
   of the docked y; x is left alone. The control passes its bounds WIDTH as
   `extent`, not its height.
   */
  function DragVertically(center: Point, origin: Point, extent: real, translation: Point): (r: Point)
    ensures r.x == center.x
    ensures extent >= 0.0 ==> origin.y - extent <= r.y <= origin.y + extent
    ensures extent >= 0.0 && origin.y - extent <= center.y + translation.y <= origin.y + extent
      ==> r.y == center.y + translation.y
    ensures extent >= 0.0 && center.y + translation.y < origin.y - extent ==> r.y == origin.y - extent
    ensures extent >= 0.0 && origin.y + extent < center.y + translation.y ==> r.y == origin.y + extent
  {
    Point(center.x, Clamp(origin.y - extent, origin.y + extent, center.y + translation.y))
  }

  /** `isHalfOutOfFrame`: the centre is at or past the leading edge on either axis. */
  function HalfOutOfFrame(p: Point): (out: bool)
    ensures p.x <= 0.0 ==> out
    ensures p.y <= 0.0 ==> out
    ensures p.x > 0.0 && p.y > 0.0 ==> !out
  {
    p.x <= 0.0 || p.y <= 0.0
  }

  /**
   Where `slideElementOutOfFrame` leaves a centre: half a bounds dimension
   past the leading edge on the slide axis, the other coordinate kept.
   */
  function OutOfFramePosition(cfg: Config, p: Point): (r: Point)
    ensures cfg.slidesHorizontally ==> r.x == -cfg.boundsWidth / 2.0 && r.y == p.y
    ensures !cfg.slidesHorizontally ==> r.y == -cfg.boundsHeight / 2.0 && r.x == p.x
    ensures cfg.slidesHorizontally && cfg.boundsWidth >= 0.0 ==> HalfOutOfFrame(r)
    ensures !cfg.slidesHorizontally && cfg.boundsHeight >= 0.0 ==> HalfOutOfFrame(r)
  {
    if cfg.slidesHorizontally then p.(x := HorizontalSlide(cfg)) else p.(y := VerticalSlide(cfg))
  }

  // ---------------------------------------------------------------------
  // Snapshot-level behaviour of the handlers

  /** `layoutSubviews`: both buttons framed at (0, 0, w, h) and the docked centre captured. */
  function LaidOut(cfg: Config, s: Snapshot): (r: Snapshot)
    ensures r.originalCenter == Some(LaidOutCenter(cfg))
    ensures r.primary == LaidOutCenter(cfg) && r.confirm == LaidOutCenter(cfg)
    ensures r.appearance == s.appearance && r.pendingReverts == s.pendingReverts && r.animations == s.animations
  {
    var c := LaidOutCenter(cfg);
    s.(primary := c, confirm := c, originalCenter := Some(c))
  }

  /** `slideElementOutOfFrame`: always starts one animation, moves only the slide-axis coordinate of `e`. */
  function OutOfFrame(cfg: Config, s: Snapshot, e: Element): (r: Snapshot)
    ensures CenterOf(r, e) == OutOfFramePosition(cfg, CenterOf(s, e))
    ensures CenterOf(r, Other(e)) == CenterOf(s, Other(e))
    ensures r.originalCenter == s.originalCenter && r.appearance == s.appearance
    ensures r.pendingReverts == s.pendingReverts
    ensures r.animations == s.animations + 1
  {
    WithCenter(s, e, OutOfFramePosition(cfg, CenterOf(s, e))).(animations := s.animations + 1)
  }

  /**
   `slideElementToOriginalPosition`: afterwards `e` sits at the docked centre;
   an element already there is left alone and no animation is started.
   */
  function ToOriginalPosition(s: Snapshot, e: Element): (r: Snapshot)
    requires s.originalCenter.Some?
    ensures CenterOf(r, e) == s.originalCenter.value
    ensures CenterOf(r, Other(e)) == CenterOf(s, Other(e))
    ensures CenterOf(s, e) == s.originalCenter.value ==> r == s
    ensures CenterOf(s, e) != s.originalCenter.value ==> r.animations == s.animations + 1
    ensures r.originalCenter == s.originalCenter && r.appearance == s.appearance
    ensures r.pendingReverts == s.pendingReverts
  {
    var o := s.originalCenter.value;
    if CenterOf(s, e) != o then WithCenter(s, e, o).(animations := s.animations + 1) else s
  }

  /** `primaryHandlePan`: dispatch on the recognizer's state. */
  function HandlePan(cfg: Config, s: Snapshot, state: GestureState, translation: Point): (r: Snapshot)
    requires s.originalCenter.Some?
    ensures state == Changed ==> r.confirm == s.confirm && r == s.(primary := r.primary)
    ensures state == Changed && cfg.slidesHorizontally ==>
      r.primary == DragHorizontally(s.primary, s.originalCenter.value, cfg.boundsWidth, translation)
    ensures state == Changed && !cfg.slidesHorizontally ==>
      r.primary == DragVertically(s.primary, s.originalCenter.value, cfg.boundsWidth, translation)
    ensures state == Ended && HalfOutOfFrame(s.primary) ==> r == OutOfFrame(cfg, s, PrimaryButton)
    ensures state == Ended && !HalfOutOfFrame(s.primary) ==> r == ToOriginalPosition(s, PrimaryButton)
    ensures state != Changed && state != Ended ==> r == s
  {
    var o := s.originalCenter.value;
    match state
    case Changed =>
      if cfg.slidesHorizontally then s.(primary := DragHorizontally(s.primary, o, cfg.boundsWidth, translation))
      else s.(primary := DragVertically(s.primary, o, cfg.boundsWidth, translation))
    case Ended =>
      if HalfOutOfFrame(s.primary) then OutOfFrame(cfg, s, PrimaryButton)
      else ToOriginalPosition(s, PrimaryButton)
    case _ => s
  }

  /**
   `confirmTap` with the predicate's result: the label shows the outcome,
   the confirm button is ejected, the primary button stays put, and a
   failure queues one more revert without cancelling earlier ones.
   */
  function ConfirmTapped(cfg: Config, s: Snapshot, accepted: bool): (r: Snapshot)
    ensures r.appearance == (if accepted then ShowsSuccess else ShowsError)
    ensures r.confirm == OutOfFramePosition(cfg, s.confirm)
    ensures r.primary == s.primary && r.originalCenter == s.originalCenter
    ensures r.pendingReverts == s.pendingReverts + (if accepted then 0 else 1)
    ensures r.animations == s.animations + 1
  {
    var ejected := OutOfFrame(cfg, s.(appearance := if accepted then ShowsSuccess else ShowsError), ConfirmButton);
    if accepted then ejected else ejected.(pendingReverts := ejected.pendingReverts + 1)
  }

  /** The deferred block of a failed confirm: one revert consumed, both buttons docked, the label kept. */
  function Reverted(s: Snapshot): (r: Snapshot)
    requires s.originalCenter.Some? && s.pendingReverts > 0
    ensures r.primary == s.originalCenter.value && r.confirm == s.originalCenter.value
    ensures r.originalCenter == s.originalCenter && r.appearance == s.appearance
    ensures r.pendingReverts == s.pendingReverts - 1
    ensures r.animations == s.animations
      + (if s.primary != s.originalCenter.value then 1 else 0)
      + (if s.confirm != s.originalCenter.value then 1 else 0)
  {
    ToOriginalPosition(ToOriginalPosition(s.(pendingReverts := s.pendingReverts - 1), PrimaryButton), ConfirmButton)
  }

  /**
   What holds of every reachable state: the docked centre, once captured,
   is the centre of the bounds, and a revert is only ever queued after the
   first layout.
   */
  predicate Consistent(cfg: Config, s: Snapshot) {
    && (s.originalCenter.None? || s.originalCenter.value == LaidOutCenter(cfg))
    && (s.pendingReverts > 0 ==> s.originalCenter.Some?)
  }

  /**
   One event. The handlers are attached in `layoutSubviews`, so a touch or
   pan before the first layout reaches none of them; a revert fires only
   when one is queued.
   */
  function Step(cfg: Config, s: Snapshot, ev: Event): (r: Snapshot)
    ensures Consistent(cfg, s) ==> Consistent(cfg, r)
    ensures !ev.Layout? && s.originalCenter.None? ==> r == s
    ensures ev.RevertFires? && s.pendingReverts == 0 ==> r == s
  {
    match ev
    case Layout => LaidOut(cfg, s)
    case Pan(state, t) => if s.originalCenter.None? then s else HandlePan(cfg, s, state, t)
    case PrimaryTouchDown => if s.originalCenter.None? then s else OutOfFrame(cfg, s, PrimaryButton)
    case ConfirmTouchDown(ok) => if s.originalCenter.None? then s else ConfirmTapped(cfg, s, ok)
    case RevertFires => if s.originalCenter.None? || s.pendingReverts == 0 then s else Reverted(s)
  }

  /** A stream of events, handled in order. */
  function Run(cfg: Config, s: Snapshot, evs: seq<Event>): (r: Snapshot)
    ensures Consistent(cfg, s) ==> Consistent(cfg, r)
    decreases |evs|
  {
    if evs == [] then s else Run(cfg, Step(cfg, s, evs[0]), evs[1..])
  }

  // ---------------------------------------------------------------------
  // The control

  class DoubleTapButton {
    var primaryCenter: Point
    var confirmCenter: Point
    var originalCenter: Option<Point>
    /** The bounds, read once (lazily) and fixed afterwards. */
    const boundsWidth: real
    const boundsHeight: real
    const slidesHorizontally: bool
    var appearance: LabelAppearance
    var pendingReverts: nat
    var animations: nat

    function Cfg(): Config {
      Config(boundsWidth, boundsHeight, slidesHorizontally)
    }

    function Snap(): Snapshot
      reads this
    {
      Snapshot(primaryCenter, confirmCenter, originalCenter, appearance, pendingReverts, animations)
    }

    ghost predicate Valid()
      reads this
    {
      Consistent(Cfg(), Snap())
    }

    function Center(e: Element): Point
      reads this
    {
      CenterOf(Snap(), e)
    }

    /**
     A control before its first layout: subviews with zero frames, no docked
     centre yet, and a label built with the success appearance.
     */
    constructor (width: real, height: real, horizontally: bool)
      ensures Valid()
      ensures Cfg() == Config(width, height, horizontally)
      ensures Snap() == Snapshot(Point(0.0, 0.0), Point(0.0, 0.0), None, ShowsSuccess, 0, 0)
    {
      boundsWidth, boundsHeight, slidesHorizontally := width, height, horizontally;
      primaryCenter, confirmCenter := Point(0.0, 0.0), Point(0.0, 0.0);
      originalCenter := None;
      appearance := ShowsSuccess;
      pendingReverts, animations := 0, 0;
    }

    method SetCenter(e: Element, p: Point)
      requires Valid()
      modifies this
      ensures Valid()
      ensures Snap() == WithCenter(old(Snap()), e, p)
    {
      match e
      case PrimaryButton => primaryCenter := p;
      case ConfirmButton => confirmCenter := p;
    }

    method LayoutSubviews()
      requires Valid()
      modifies this
      ensures Valid()
      ensures Snap() == LaidOut(Cfg(), old(Snap()))
    {
      primaryCenter := LaidOutCenter(Cfg());
      originalCenter := Some(primaryCenter);
      confirmCenter := LaidOutCenter(Cfg());
    }

    method SlideElementHorizontally(e: Element, translation: Point)
      requires Valid() && originalCenter.Some?
      modifies this
      ensures Valid()
      ensures Snap() == WithCenter(old(Snap()), e,
        DragHorizontally(old(Center(e)), old(originalCenter.value), boundsWidth, translation))
    {
      var minXTranslation := originalCenter.value.x - boundsWidth;
      var maxXTranslation := originalCenter.value.x + boundsWidth;
      var c := Center(e);
      SetCenter(e, c.(x := Max(minXTranslation, Min(maxXTranslation, c.x + translation.x))));
    }

    method SlideElementVertically(e: Element, translation: Point)
      requires Valid() && originalCenter.Some?
      modifies this
      ensures Valid()
      ensures Snap() == WithCenter(old(Snap()), e,
        DragVertically(old(Center(e)), old(originalCenter.value), boundsWidth, translation))
    {
      var minYTranslation := originalCenter.value.y - boundsWidth;
      var maxYTranslation := originalCenter.value.y + boundsWidth;
      var c := Center(e);
      SetCenter(e, c.(y := Max(minYTranslation, Min(maxYTranslation, c.y + translation.y))));
    }

    function IsHalfOutOfFrame(e: Element): (out: bool)
      reads this
      ensures (Valid() && originalCenter.Some? && Center(e) == originalCenter.value
               && boundsWidth > 0.0 && boundsHeight > 0.0) ==> !out
    {
      HalfOutOfFrame(Center(e))
    }

    method SlideElementOutOfFrame(e: Element)
      requires Valid() && originalCenter.Some?
      modifies this
      ensures Valid()
      ensures Snap() == OutOfFrame(Cfg(), old(Snap()), e)
    {
      var c := Center(e);
      if slidesHorizontally {
        SetCenter(e, c.(x := HorizontalSlide(Cfg())));
      } else {
        SetCenter(e, c.(y := VerticalSlide(Cfg())));
      }
      animations := animations + 1;
    }

    method SlideElementToOriginalPosition(e: Element)
      requires Valid() && originalCenter.Some?
      modifies this
      ensures Valid()
      ensures Snap() == ToOriginalPosition(old(Snap()), e)
    {
      if Center(e) != originalCenter.value {
        SetCenter(e, originalCenter.value);
        animations := animations + 1;
      }
    }

    method PrimaryHandlePan(state: GestureState, translation: Point)
      requires Valid() && originalCenter.Some?
      modifies this
      ensures Valid()
      ensures Snap() == HandlePan(Cfg(), old(Snap()), state, translation)
    {
      match state
      case Changed =>
        if slidesHorizontally {
          SlideElementHorizontally(PrimaryButton, translation);
        } else {
          SlideElementVertically(PrimaryButton, translation);
        }
      case Ended =>
        if IsHalfOutOfFrame(PrimaryButton) {
          SlideElementOutOfFrame(PrimaryButton);
        } else {
          SlideElementToOriginalPosition(PrimaryButton);
        }
      case _ =>
    }

    method ConfirmTap(accepted: bool)
      requires Valid() && originalCenter.Some?
      modifies this
      ensures Valid()
      ensures Snap() == ConfirmTapped(Cfg(), old(Snap()), accepted)
    {
      if accepted {
        appearance := ShowsSuccess;
        SlideElementOutOfFrame(ConfirmButton);
      } else {
        appearance := ShowsError;
        SlideElementOutOfFrame(ConfirmButton);
        pendingReverts := pendingReverts + 1;
      }
    }

    /** The main queue runs one of the revert blocks queued by `ConfirmTap`. */
    method FireRevert()
      requires Valid() && pendingReverts > 0
      modifies this
      ensures Valid()
      ensures Snap() == Reverted(old(Snap()))
    {
      pendingReverts := pendingReverts - 1;
      SlideElementToOriginalPosition(PrimaryButton);
      SlideElementToOriginalPosition(ConfirmButton);
    }
  }
}
