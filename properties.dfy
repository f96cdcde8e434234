/**
 What the control promises over whole interactions: streams of events
 folded by `Run`, from drag sessions to repeated failed confirms.
 */
module DoubleTapProperties {
  import opened Geometry
  import opened DoubleTap

  /** Every event is a `.Changed` call of the pan recognizer. */
  predicate AllDrags(evs: seq<Event>) {
    forall i :: 0 <= i < |evs| ==> evs[i].Pan? && evs[i].state == Changed
  }

  predicate AllFailedConfirms(evs: seq<Event>) {
    forall i :: 0 <= i < |evs| ==> evs[i] == ConfirmTouchDown(false)
  }

  predicate AllReverts(evs: seq<Event>) {
    forall i :: 0 <= i < |evs| ==> evs[i] == RevertFires
  }

  /** Handling a concatenation is handling the two parts in turn. */
  lemma {:induction false} RunAppend(cfg: Config, s: Snapshot, a: seq<Event>, b: seq<Event>)
    ensures Run(cfg, s, a + b) == Run(cfg, Run(cfg, s, a), b)
    decreases |a|
  {
    if a == [] {
      assert a + b == b;
    } else {
      assert (a + b)[0] == a[0] && (a + b)[1..] == a[1..] + b;
      RunAppend(cfg, Step(cfg, s, a[0]), a[1..], b);
    }
  }

  /**
   A drag session moves the primary button only, and only on the slide
   axis; after at least one step it lies within one bounds WIDTH of the
   docked centre on that axis, whichever axis that is.
   */
  lemma {:induction false} DragSessionStaysClamped(cfg: Config, s: Snapshot, evs: seq<Event>)
    requires s.originalCenter.Some? && cfg.boundsWidth >= 0.0
    requires AllDrags(evs)
    ensures var r := Run(cfg, s, evs);
      && r == s.(primary := r.primary)
      && (cfg.slidesHorizontally ==> r.primary.y == s.primary.y)
      && (!cfg.slidesHorizontally ==> r.primary.x == s.primary.x)
    ensures var r := Run(cfg, s, evs); var o := s.originalCenter.value;
      && (|evs| > 0 && cfg.slidesHorizontally ==>
            o.x - cfg.boundsWidth <= r.primary.x <= o.x + cfg.boundsWidth)
      && (|evs| > 0 && !cfg.slidesHorizontally ==>
            o.y - cfg.boundsWidth <= r.primary.y <= o.y + cfg.boundsWidth)
    decreases |evs|
  {
    if evs != [] {
      var s' := Step(cfg, s, evs[0]);
      assert AllDrags(evs[1..]) by {
        forall i | 0 <= i < |evs[1..]| ensures evs[1..][i].Pan? && evs[1..][i].state == Changed {
          assert evs[1..][i] == evs[i + 1];
        }
      }
      DragSessionStaysClamped(cfg, s', evs[1..]);
    }
  }

  /** Letting go ejects the primary button if its centre is past the threshold, and docks it otherwise. */
  lemma PanSessionOutcome(cfg: Config, s: Snapshot, drags: seq<Event>, t: Point)
    requires s.originalCenter.Some? && cfg.boundsWidth >= 0.0
    requires AllDrags(drags)
    ensures Run(cfg, s, drags).originalCenter == s.originalCenter
    ensures var d := Run(cfg, s, drags);
      Run(cfg, s, drags + [Pan(Ended, t)])
        == if HalfOutOfFrame(d.primary) then OutOfFrame(cfg, d, PrimaryButton)
           else ToOriginalPosition(d, PrimaryButton)
  {
    RunAppend(cfg, s, drags, [Pan(Ended, t)]);
    DragSessionStaysClamped(cfg, s, drags);
  }

  /**
   A horizontal drag that starts docked ends, on release, either with the
   primary button ejected to x = -width/2 (when its centre was dragged to
   x <= 0) or back at the docked centre; nothing but the primary button and
   the animation count changes.
   */
  lemma HorizontalPanEndsEjectedOrDocked(cfg: Config, s: Snapshot, drags: seq<Event>, t: Point)
    requires Consistent(cfg, s) && s.originalCenter.Some? && s.primary == s.originalCenter.value
    requires cfg.slidesHorizontally && cfg.boundsWidth >= 0.0 && cfg.boundsHeight > 0.0
    requires AllDrags(drags)
    ensures var d := Run(cfg, s, drags); var f := Run(cfg, s, drags + [Pan(Ended, t)]);
      && (d.primary.x <= 0.0 ==> f.primary == Point(-cfg.boundsWidth / 2.0, cfg.boundsHeight / 2.0))
      && (d.primary.x > 0.0 ==> f.primary == LaidOutCenter(cfg))
      && f == s.(primary := f.primary, animations := f.animations)
  {
    PanSessionOutcome(cfg, s, drags, t);
    DragSessionStaysClamped(cfg, s, drags);
  }

  /**
   The vertical counterpart: the primary button is ejected to
   y = -height/2 exactly when it was dragged to y <= 0, and docked otherwise.
   */
  lemma VerticalPanEndsEjectedOrDocked(cfg: Config, s: Snapshot, drags: seq<Event>, t: Point)
    requires Consistent(cfg, s) && s.originalCenter.Some? && s.primary == s.originalCenter.value
    requires !cfg.slidesHorizontally && cfg.boundsWidth > 0.0 && cfg.boundsHeight >= 0.0
    requires AllDrags(drags)
    ensures var d := Run(cfg, s, drags); var f := Run(cfg, s, drags + [Pan(Ended, t)]);
      && (d.primary.y <= 0.0 ==> f.primary == Point(cfg.boundsWidth / 2.0, -cfg.boundsHeight / 2.0))
      && (d.primary.y > 0.0 ==> f.primary == LaidOutCenter(cfg))
      && f == s.(primary := f.primary, animations := f.animations)
  {
    PanSessionOutcome(cfg, s, drags, t);
    DragSessionStaysClamped(cfg, s, drags);
  }

  /**
   From the docked centre of a laid-out control, one horizontal step
   crosses the threshold exactly when it drags the button left by half the
   width or more, i.e. beyond the middle of the frame.
   */
  lemma ThresholdIsHalfTheWidth(cfg: Config, s: Snapshot, t: Point)
    requires s.originalCenter == Some(LaidOutCenter(cfg)) && s.primary == LaidOutCenter(cfg)
    requires cfg.slidesHorizontally && cfg.boundsWidth > 0.0 && cfg.boundsHeight > 0.0
    ensures HalfOutOfFrame(Step(cfg, s, Pan(Changed, t)).primary) <==> t.x <= -cfg.boundsWidth / 2.0
  {
  }

  /**
   The threshold looks at both coordinates whatever the slide axis: a
   vertically sliding control whose primary centre has x = 0 is ejected on
   release, and a centre exactly on the edge counts as out.
   */
  lemma ThresholdIgnoresSlideAxis(cfg: Config, s: Snapshot, t: Point)
    requires s.originalCenter.Some? && !cfg.slidesHorizontally && s.primary.x == 0.0
    ensures HalfOutOfFrame(s.primary)
    ensures Step(cfg, s, Pan(Ended, t)).primary == Point(0.0, -cfg.boundsHeight / 2.0)
  {
  }

  /** A pan state other than `.Changed` or `.Ended` leaves the control as it was. */
  lemma {:induction false} OtherPanStatesChangeNothing(cfg: Config, s: Snapshot, evs: seq<Event>)
    requires forall i :: 0 <= i < |evs| ==> evs[i].Pan? && evs[i].state != Changed && evs[i].state != Ended
    ensures Run(cfg, s, evs) == s
    decreases |evs|
  {
    if evs != [] {
      OtherPanStatesChangeNothing(cfg, Step(cfg, s, evs[0]), evs[1..]);
    }
  }

  /** Docking twice is docking once, and the second call starts no animation. */
  lemma DockingIsIdempotent(s: Snapshot, e: Element)
    requires s.originalCenter.Some?
    ensures ToOriginalPosition(ToOriginalPosition(s, e), e) == ToOriginalPosition(s, e)
  {
  }

  /**
   Once captured, the docked centre never changes: later layout passes
   recompute the same value and no handler writes it.
   */
  lemma {:induction false} OriginalCenterIsStable(cfg: Config, s: Snapshot, evs: seq<Event>)
    requires Consistent(cfg, s) && s.originalCenter.Some?
    ensures Run(cfg, s, evs).originalCenter == s.originalCenter
    decreases |evs|
  {
    if evs != [] {
      var s' := Step(cfg, s, evs[0]);
      assert s'.originalCenter == s.originalCenter;
      OriginalCenterIsStable(cfg, s', evs[1..]);
    }
  }

  /**
   Failed confirms stack their reverts: n failures in a row queue n more
   reverts, none of the earlier ones cancelled, and leave the error
   appearance showing and the primary button where it was.
   */
  lemma {:induction false} FailedConfirmsStack(cfg: Config, s: Snapshot, evs: seq<Event>)
    requires s.originalCenter.Some? && AllFailedConfirms(evs)
    ensures var r := Run(cfg, s, evs);
      && r.pendingReverts == s.pendingReverts + |evs|
      && r.primary == s.primary && r.originalCenter == s.originalCenter
      && (|evs| > 0 ==> r.appearance == ShowsError)
    decreases |evs|
  {
    if evs != [] {
      assert AllFailedConfirms(evs[1..]) by {
        forall i | 0 <= i < |evs[1..]| ensures evs[1..][i] == ConfirmTouchDown(false) {
          assert evs[1..][i] == evs[i + 1];
        }
      }
      FailedConfirmsStack(cfg, Step(cfg, s, evs[0]), evs[1..]);
    }
  }

  /**
   Queued reverts each consume one entry; after at least one has run both
   buttons sit at the docked centre and the label still shows what the
   last confirm left.
   */
  lemma {:induction false} RevertsDrainQueue(cfg: Config, s: Snapshot, evs: seq<Event>)
    requires s.originalCenter.Some? && AllReverts(evs) && |evs| <= s.pendingReverts
    ensures var r := Run(cfg, s, evs);
      && r.pendingReverts == s.pendingReverts - |evs|
      && r.originalCenter == s.originalCenter && r.appearance == s.appearance
      && (|evs| > 0 ==> r.primary == s.originalCenter.value && r.confirm == s.originalCenter.value)
    decreases |evs|
  {
    if evs != [] {
      assert AllReverts(evs[1..]) by {
        forall i | 0 <= i < |evs[1..]| ensures evs[1..][i] == RevertFires {
          assert evs[1..][i] == evs[i + 1];
        }
      }
      var s' := Step(cfg, s, evs[0]);
      RevertsDrainQueue(cfg, s', evs[1..]);
    }
  }

  /**
   A failed confirm followed by its revert: the error appearance stays,
   both buttons are docked, and the queue is back where it was.
   */
  lemma FailedConfirmThenRevert(cfg: Config, s: Snapshot)
    requires s.originalCenter.Some?
    ensures var r := Run(cfg, s, [ConfirmTouchDown(false), RevertFires]);
      && r.appearance == ShowsError
      && r.primary == s.originalCenter.value && r.confirm == s.originalCenter.value
      && r.pendingReverts == s.pendingReverts
  {
  }

  /**
   A successful confirm schedules nothing: with no revert queued before it,
   the control keeps the success appearance and the ejected confirm button
   whatever the main queue does afterwards.
   */
  lemma {:induction false} SuccessIsTerminal(cfg: Config, s: Snapshot, evs: seq<Event>)
    requires s.originalCenter.Some? && s.pendingReverts == 0 && AllReverts(evs)
    ensures var c := Step(cfg, s, ConfirmTouchDown(true));
      && c.appearance == ShowsSuccess && c.pendingReverts == 0
      && c.confirm == OutOfFramePosition(cfg, s.confirm)
      && Run(cfg, c, evs) == c
    decreases |evs|
  {
    var c := Step(cfg, s, ConfirmTouchDown(true));
    if evs != [] {
      assert Step(cfg, c, evs[0]) == c;
      assert AllReverts(evs[1..]) by {
        forall i | 0 <= i < |evs[1..]| ensures evs[1..][i] == RevertFires {
          assert evs[1..][i] == evs[i + 1];
        }
      }
      SuccessIsTerminal(cfg, s, evs[1..]);
    }
  }

  /** Before the first layout no handler is attached, so touches, pans and the queue do nothing. */
  lemma {:induction false} NothingBeforeLayout(cfg: Config, s: Snapshot, evs: seq<Event>)
    requires s.originalCenter.None?
    requires forall i :: 0 <= i < |evs| ==> !evs[i].Layout?
    ensures Run(cfg, s, evs) == s
    decreases |evs|
  {
    if evs != [] {
      assert Step(cfg, s, evs[0]) == s;
      NothingBeforeLayout(cfg, s, evs[1..]);
    }
  }

  /** After a clamped step, a zero translation leaves the primary button where it is. */
  lemma ZeroDragIsNoOp(cfg: Config, s: Snapshot, t: Point)
    requires s.originalCenter.Some? && cfg.boundsWidth >= 0.0
    ensures var d := Step(cfg, s, Pan(Changed, t));
      Step(cfg, d, Pan(Changed, Point(0.0, 0.0))) == d
  {
  }
}

/**
 A client of the class alone: a horizontal control is laid out, its primary
 button dragged past the middle and released, the confirm fails and its
 revert runs. Only the methods' contracts are used.
 */
module DoubleTapClient {
  import opened Geometry
  import opened DoubleTap

  method FailedConfirmRoundTrip() {
    var b := new DoubleTapButton(100.0, 40.0, true);
    b.LayoutSubviews();
    assert b.originalCenter == Some(Point(50.0, 20.0));
    b.PrimaryHandlePan(Began, Point(0.0, 0.0));
    b.PrimaryHandlePan(Changed, Point(-60.0, 5.0));
    assert b.primaryCenter == Point(-10.0, 20.0);
    b.PrimaryHandlePan(Ended, Point(0.0, 0.0));
    assert b.primaryCenter == Point(-50.0, 20.0);
    b.ConfirmTap(false);
    assert b.appearance == ShowsError && b.pendingReverts == 1;
    assert b.confirmCenter == Point(-50.0, 20.0);
    b.FireRevert();
    assert b.primaryCenter == Point(50.0, 20.0) && b.confirmCenter == Point(50.0, 20.0);
    assert b.appearance == ShowsError && b.pendingReverts == 0;
  }
}
