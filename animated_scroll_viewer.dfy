/** The animated scroll viewer: how wheel, horizontal-wheel, keyboard and scroll-bar
    input move the target offsets, the clamp into the scrollable range, and the
    non-animated path that jumps straight to the targets. What the framework's
    scroll-ability queries answer, and whether animation is on, are inputs. */
module ScrollViewers {
  import opened Framework

  const SmallStep: real := 16.0
  const LargeStep: real := 48.0

  datatype Orientation = Vertical | Horizontal

  /** The answers of CanVScrollUp/Down and CanHScrollLeft/Right for the current state. */
  datatype Ability = Ability(canUp: bool, canDown: bool, canLeft: bool, canRight: bool)

  /** Where an input sends the scroll viewer: nowhere, or to a new vertical or
      horizontal target offset. */
  datatype Scroll = NoScroll | ScrollV(v: real) | ScrollH(h: real)

  function Min(a: real, b: real): real { if a <= b then a else b }
  function Max(a: real, b: real): real { if a >= b then a else b }

  /** NormalizeScrollPos with the Scrollable* bound of the orientation: zero for a
      negative offset, the bound for one beyond it (this test is made last and wins). */
  function NormalizeScrollPos(scrollChange: real, bound: real): (r: real)
    ensures scrollChange > bound ==> r == bound
    ensures scrollChange <= bound && scrollChange < 0.0 ==> r == 0.0
    ensures 0.0 <= scrollChange <= bound ==> r == scrollChange
    ensures 0.0 <= bound ==> 0.0 <= r <= bound
  {
    var returnValue := if scrollChange < 0.0 then 0.0 else scrollChange;
    if scrollChange > bound then bound else returnValue
  }

  /** Normalising an offset that is already in range changes nothing, so normalising
      twice is normalising once. */
  lemma NormalizeIdempotent(scrollChange: real, bound: real)
    requires 0.0 <= bound
    ensures NormalizeScrollPos(NormalizeScrollPos(scrollChange, bound), bound)
         == NormalizeScrollPos(scrollChange, bound)
  {
  }

  /** The horizontal wheel: a negative delta scrolls left, any other right. */
  function HWheelScroll(delta: int, can: Ability, h: real, scrollableWidth: real): Scroll
  {
    if delta < 0 then
      if can.canLeft then ScrollH(Max(0.0, h - LargeStep)) else NoScroll
    else
      if can.canRight then ScrollH(Min(scrollableWidth, h + LargeStep)) else NoScroll
  }

  /** The vertical wheel: a negative delta scrolls down, any other up; when the
      vertical direction is blocked and SimulateHWheel is on, it scrolls right or left. */
  function WheelScroll(delta: int, can: Ability, simulateHWheel: bool,
                       v: real, h: real, scrollableHeight: real, scrollableWidth: real): Scroll
  {
    if delta < 0 then
      if can.canDown then ScrollV(Min(scrollableHeight, v + LargeStep))
      else if can.canRight && simulateHWheel then ScrollH(Min(scrollableWidth, h + LargeStep))
      else NoScroll
    else
      if can.canUp then ScrollV(Max(0.0, v - LargeStep))
      else if can.canLeft && simulateHWheel then ScrollH(Max(0.0, h - LargeStep))
      else NoScroll
  }

  /** The navigation keys: arrows move by a small step, page keys by the viewport
      height, each normalised into the scrollable range. */
  function KeyScroll(key: Key, can: Ability, v: real, h: real, viewportHeight: real,
                     scrollableHeight: real, scrollableWidth: real): Scroll
  {
    match key
    case Down => if can.canDown then ScrollV(NormalizeScrollPos(v + SmallStep, scrollableHeight)) else NoScroll
    case PageDown => if can.canDown then ScrollV(NormalizeScrollPos(v + viewportHeight, scrollableHeight)) else NoScroll
    case Up => if can.canUp then ScrollV(NormalizeScrollPos(v - SmallStep, scrollableHeight)) else NoScroll
    case PageUp => if can.canUp then ScrollV(NormalizeScrollPos(v - viewportHeight, scrollableHeight)) else NoScroll
    case Left => if can.canLeft then ScrollH(NormalizeScrollPos(h - SmallStep, scrollableWidth)) else NoScroll
    case Right => if can.canRight then ScrollH(NormalizeScrollPos(h + SmallStep, scrollableWidth)) else NoScroll
    case _ => NoScroll
  }

  /** A target lies in the scrollable range of its orientation. */
  predicate InRange(s: Scroll, scrollableHeight: real, scrollableWidth: real)
  {
    match s
    case NoScroll => true
    case ScrollV(t) => 0.0 <= t <= scrollableHeight
    case ScrollH(t) => 0.0 <= t <= scrollableWidth
  }

  /** Starting from offsets inside the scrollable range, every wheel target stays in
      that range and moves in the direction of the wheel: down or right for a
      negative delta, up or left otherwise. */
  lemma WheelTargetsInRange(delta: int, can: Ability, simulateHWheel: bool,
                            v: real, h: real, scrollableHeight: real, scrollableWidth: real)
    requires 0.0 <= v <= scrollableHeight && 0.0 <= h <= scrollableWidth
    ensures var s := WheelScroll(delta, can, simulateHWheel, v, h, scrollableHeight, scrollableWidth);
      && InRange(s, scrollableHeight, scrollableWidth)
      && (s.ScrollV? ==> if delta < 0 then s.v >= v else s.v <= v)
      && (s.ScrollH? ==> if delta < 0 then s.h >= h else s.h <= h)
    ensures var s := HWheelScroll(delta, can, h, scrollableWidth);
      && InRange(s, scrollableHeight, scrollableWidth)
      && !s.ScrollV?
      && (s.ScrollH? ==> if delta < 0 then s.h <= h else s.h >= h)
  {
  }

  /** Vertical scrolling takes priority: the wheel only scrolls horizontally when the
      vertical direction it asks for is blocked and SimulateHWheel is on. */
  lemma WheelPrefersVertical(delta: int, can: Ability, simulateHWheel: bool,
                             v: real, h: real, scrollableHeight: real, scrollableWidth: real)
    ensures var s := WheelScroll(delta, can, simulateHWheel, v, h, scrollableHeight, scrollableWidth);
      && (s.ScrollV? <==> (if delta < 0 then can.canDown else can.canUp))
      && (s.ScrollH? <==> simulateHWheel && (if delta < 0 then !can.canDown && can.canRight
                                                          else !can.canUp && can.canLeft))
  {
  }

  /** Every keyboard target is normalised, so it lies in the scrollable range whatever
      the current offsets; only the six navigation keys scroll. */
  lemma KeyTargetsInRange(key: Key, can: Ability, v: real, h: real, viewportHeight: real,
                          scrollableHeight: real, scrollableWidth: real)
    requires 0.0 <= scrollableHeight && 0.0 <= scrollableWidth
    ensures var s := KeyScroll(key, can, v, h, viewportHeight, scrollableHeight, scrollableWidth);
      && InRange(s, scrollableHeight, scrollableWidth)
      && (s.ScrollV? ==> key in {Up, Down, PageUp, PageDown})
      && (s.ScrollH? ==> key in {Left, Right})
  {
  }

  /** The target an animated scroll bar's change asks for: a rounded delta of +1 or -1
      (a page click) moves by the viewport, +0.1 or -0.1 (an arrow click) by the small
      step, and anything else (a drag) goes to the new value. */
  function AniBarTarget(oldValue: real, newValue: real, roundedDelta: real, viewport: real): real
  {
    if roundedDelta == 1.0 then oldValue + viewport
    else if roundedDelta == -1.0 then oldValue - viewport
    else if roundedDelta == 0.1 then oldValue + SmallStep
    else if roundedDelta == -0.1 then oldValue - SmallStep
    else newValue
  }

  /** A click on the animated bar moves the target from the bar's old value in the
      click's direction, by a whole viewport for a page click and by the small step
      for an arrow click; a drag goes to where the bar was dragged. */
  lemma AniBarClickSteps(oldValue: real, newValue: real, roundedDelta: real, viewport: real)
    requires viewport >= 0.0
    ensures var t := AniBarTarget(oldValue, newValue, roundedDelta, viewport);
      && (roundedDelta in {1.0, -1.0} ==> t - oldValue == roundedDelta * viewport)
      && (roundedDelta in {0.1, -0.1} ==> t - oldValue == roundedDelta * 10.0 * SmallStep)
      && (roundedDelta in {1.0, 0.1} ==> t >= oldValue)
      && (roundedDelta in {-1.0, -0.1} ==> t <= oldValue)
      && (roundedDelta !in {1.0, -1.0, 0.1, -0.1} ==> t == newValue)
  {
  }

  /** The part of the viewer's state that scrolling input changes: the two targets,
      the two animated scroll bars, the animation flags and the two animated scroll
      offsets. A bar is None while it is missing: before the template is applied, in
      design mode, or when the template has no such part. */
  datatype Motion = Motion(vTarget: real, hTarget: real, vBar: Option<real>, hBar: Option<real>,
                           hAnimating: bool, vAnimating: bool, hScroll: real, vScroll: real)

  /** What a target setter leaves: whether it threw, and the motion state after it. */
  datatype Moved = Moved(outcome: Outcome<Exception>, motion: Motion)

  /** What an input handler leaves: whether it threw, whether the event is handled,
      and the motion state after it. */
  datatype Reaction = Reaction(outcome: Outcome<Exception>, handled: bool, motion: Motion)

  function Across(o: Orientation): Orientation
  {
    if o == Vertical then Horizontal else Vertical
  }

  function TargetOf(m: Motion, o: Orientation): real
  {
    if o == Vertical then m.vTarget else m.hTarget
  }

  function BarOf(m: Motion, o: Orientation): Option<real>
  {
    if o == Vertical then m.vBar else m.hBar
  }

  function WithTarget(m: Motion, o: Orientation, t: real): Motion
  {
    if o == Vertical then m.(vTarget := t) else m.(hTarget := t)
  }

  function WithBar(m: Motion, o: Orientation, b: Option<real>): Motion
  {
    if o == Vertical then m.(vBar := b) else m.(hBar := b)
  }

  /** Neither animation flag nor scroll offset differs between before and after. */
  predicate Still(after: Motion, before: Motion)
  {
    && after.hAnimating == before.hAnimating && after.vAnimating == before.vAnimating
    && after.hScroll == before.hScroll && after.vScroll == before.vScroll
  }

  /** The state AnimateNow leaves: on the animated path both animations are running
      and the offsets start from where they were; otherwise both offsets equal their
      targets and neither flag is set. */
  predicate Settled(after: Motion, animated: bool, before: Motion)
  {
    if animated then
      after.hAnimating && after.vAnimating
      && after.hScroll == before.hScroll && after.vScroll == before.vScroll
    else
      !after.hAnimating && !after.vAnimating
      && after.hScroll == after.hTarget && after.vScroll == after.vTarget
  }

  /** AnimateNow on a motion state: it touches only the flags and the offsets. */
  function Animate(m: Motion, animated: bool): (r: Motion)
    ensures Settled(r, animated, m)
    ensures r.vTarget == m.vTarget && r.hTarget == m.hTarget && r.vBar == m.vBar && r.hBar == m.hBar
  {
    if animated then m.(hAnimating := true, vAnimating := true)
    else m.(hAnimating := false, vAnimating := false, hScroll := m.hTarget, vScroll := m.vTarget)
  }

  /** Setting TargetVerticalOffset or TargetHorizontalOffset. The dependency property
      calls its change callback only for a new value, and has stored that value when it
      does. The callback reads the animated bar of the orientation, so a missing bar
      throws; otherwise the bar moves to the target and, unless a real-bar override of
      that orientation is in progress, AnimateNow runs. The bar is taken to hold any
      value it is given, so its own change event finds it equal to the target and
      changes nothing; a real ScrollBar coerces the value into its range first, which
      this model does not capture. */
  function SetTarget(m: Motion, o: Orientation, value: real, overriding: bool, animated: bool): (r: Moved)
    ensures TargetOf(r.motion, o) == value
    ensures TargetOf(r.motion, Across(o)) == TargetOf(m, Across(o))
    ensures BarOf(r.motion, Across(o)) == BarOf(m, Across(o))
    ensures r.outcome.Fail? <==> value != TargetOf(m, o) && BarOf(m, o).None?
    ensures r.outcome.Fail? ==> r.outcome.error == NullReference
    ensures r.outcome.Pass? && value != TargetOf(m, o) ==> BarOf(r.motion, o) == Some(value)
    ensures value == TargetOf(m, o) ==> r == Moved(Pass, m)
    ensures r.outcome.Fail? || overriding ==> Still(r.motion, m)
    ensures r.outcome.Pass? && value != TargetOf(m, o) && !overriding ==> Settled(r.motion, animated, m)
  {
    if value == TargetOf(m, o) then Moved(Pass, m)
    else
      var stored := WithTarget(m, o, value);
      if BarOf(m, o).None? then Moved(Fail(NullReference), stored)
      else
        var moved := WithBar(stored, o, Some(value));
        Moved(Pass, if overriding then moved else Animate(moved, animated))
  }

  /** Setting a target to the value it was just set to changes nothing and cannot
      throw, whatever the first setting did. */
  lemma SetTargetTwice(m: Motion, o: Orientation, value: real, overriding: bool, animated: bool)
    ensures var r := SetTarget(m, o, value, overriding, animated);
      SetTarget(r.motion, o, value, overriding, animated) == Moved(Pass, r.motion)
  {
  }

  /** The target an input asks for, set through the property of its orientation. */
  function ApplyScroll(m: Motion, s: Scroll, vOverride: bool, hOverride: bool, animated: bool): Moved
  {
    match s
    case NoScroll => Moved(Pass, m)
    case ScrollV(v) => SetTarget(m, Vertical, v, vOverride, animated)
    case ScrollH(h) => SetTarget(m, Horizontal, h, hOverride, animated)
  }

  /** The common tail of the wheel and key handlers for the scroll s they chose: the
      target is set, the event becomes handled when that succeeds, and a handled event
      animates. A setter that throws leaves the event as it was and skips the rest. */
  function HandleScroll(m: Motion, s: Scroll, wasHandled: bool, vOverride: bool, hOverride: bool,
                        animated: bool): (r: Reaction)
    ensures r.outcome == ApplyScroll(m, s, vOverride, hOverride, animated).outcome
    ensures r.outcome.Fail? ==> r.handled == wasHandled
    ensures r.outcome.Pass? ==> (r.handled <==> wasHandled || !s.NoScroll?)
    ensures r.outcome.Pass? && !r.handled ==> r.motion == m
    ensures r.outcome.Fail? ==> Still(r.motion, m)
    ensures r.motion.vTarget == (if s.ScrollV? then s.v else m.vTarget)
    ensures r.motion.hTarget == (if s.ScrollH? then s.h else m.hTarget)
    ensures r.outcome.Pass? && r.handled ==> Settled(r.motion, animated, m)
  {
    var a := ApplyScroll(m, s, vOverride, hOverride, animated);
    var handled := wasHandled || (!s.NoScroll? && a.outcome.Pass?);
    Reaction(a.outcome, handled, if a.outcome.Pass? && handled then Animate(a.motion, animated) else a.motion)
  }

  /** From offsets and targets inside the scrollable range, the wheel leaves both
      targets inside it. */
  lemma WheelKeepsTargetsInRange(m: Motion, delta: int, can: Ability, simulateHWheel: bool,
                                 v: real, h: real, scrollableHeight: real, scrollableWidth: real,
                                 vOverride: bool, hOverride: bool, animated: bool)
    requires 0.0 <= v <= scrollableHeight && 0.0 <= h <= scrollableWidth
    requires 0.0 <= m.vTarget <= scrollableHeight && 0.0 <= m.hTarget <= scrollableWidth
    ensures var s := WheelScroll(delta, can, simulateHWheel, v, h, scrollableHeight, scrollableWidth);
      var r := HandleScroll(m, s, false, vOverride, hOverride, animated);
      0.0 <= r.motion.vTarget <= scrollableHeight && 0.0 <= r.motion.hTarget <= scrollableWidth
  {
    WheelTargetsInRange(delta, can, simulateHWheel, v, h, scrollableHeight, scrollableWidth);
  }

  /** With targets inside the scrollable range, a key press leaves both targets inside
      it, whatever the current offsets. */
  lemma KeyKeepsTargetsInRange(m: Motion, key: Key, can: Ability, v: real, h: real,
                               viewportHeight: real, scrollableHeight: real, scrollableWidth: real,
                               wasHandled: bool, vOverride: bool, hOverride: bool, animated: bool)
    requires 0.0 <= m.vTarget <= scrollableHeight && 0.0 <= m.hTarget <= scrollableWidth
    ensures var s := KeyScroll(key, can, v, h, viewportHeight, scrollableHeight, scrollableWidth);
      var r := HandleScroll(m, s, wasHandled, vOverride, hOverride, animated);
      0.0 <= r.motion.vTarget <= scrollableHeight && 0.0 <= r.motion.hTarget <= scrollableWidth
  {
    KeyTargetsInRange(key, can, v, h, viewportHeight, scrollableHeight, scrollableWidth);
  }

  /** The mutable part of a routed event: whether it is handled. A null event is None. */
  datatype WheelArgs = WheelArgs(delta: int, handled: bool)
  datatype KeyArgs = KeyArgs(key: Key, handled: bool)

  class AnimatedScrollViewer {
    // the ScrollViewer's own state, maintained by the framework
    var verticalOffset: real
    var horizontalOffset: real
    var scrollableHeight: real
    var scrollableWidth: real
    var viewportHeight: real
    var viewportWidth: real
    // the dependency properties of this control
    var targetVerticalOffset: real
    var targetHorizontalOffset: real
    var verticalScrollOffset: real
    var horizontalScrollOffset: real
    var animateScroll: bool
    var canKeyboardScroll: bool
    // the animated scroll bars' values; None while a bar is missing
    var aniVBar: Option<real>
    var aniHBar: Option<real>
    // re-entrancy flags
    var isHAnimating: bool
    var isVAnimating: bool
    var isHOverride: bool
    var isVOverride: bool

    constructor ()
      ensures targetVerticalOffset == 0.0 && targetHorizontalOffset == 0.0
      ensures verticalScrollOffset == 0.0 && horizontalScrollOffset == 0.0
      ensures animateScroll && !canKeyboardScroll
      ensures aniVBar.None? && aniHBar.None?
      ensures !isHAnimating && !isVAnimating && !isHOverride && !isVOverride
    {
      targetVerticalOffset, targetHorizontalOffset := 0.0, 0.0;
      verticalScrollOffset, horizontalScrollOffset := 0.0, 0.0;
      animateScroll, canKeyboardScroll := true, false;
      aniVBar, aniHBar := None, None;
      isHAnimating, isVAnimating, isHOverride, isVOverride := false, false, false, false;
    }

    /** The motion state of this viewer. */
    function Now(): Motion
      reads this
    {
      Motion(targetVerticalOffset, targetHorizontalOffset, aniVBar, aniHBar,
             isHAnimating, isVAnimating, horizontalScrollOffset, verticalScrollOffset)
    }

    /** Whether AnimateNow takes the animated branch. */
    predicate Animated(shouldAnimate: bool)
      reads this
    {
      animateScroll && shouldAnimate
    }

    /** OnApplyTemplate: outside design mode the animated bars are looked up in the new
        template, each None when the template lacks it; in design mode nothing changes. */
    method OnApplyTemplate(designMode: bool, vBar: Option<real>, hBar: Option<real>)
      modifies this`aniVBar, this`aniHBar
      ensures designMode ==> aniVBar == old(aniVBar) && aniHBar == old(aniHBar)
      ensures !designMode ==> aniVBar == vBar && aniHBar == hBar
    {
      if !designMode {
        aniVBar := vBar;
        aniHBar := hBar;
      }
    }

    /** AnimateNow. Of the animated branch only the flags are modelled: the animations
        themselves and their Completed callbacks belong to the framework. */
    method AnimateNow(shouldAnimate: bool)
      modifies this`isHAnimating, this`isVAnimating,
               this`horizontalScrollOffset, this`verticalScrollOffset
      ensures Now() == Animate(old(Now()), Animated(shouldAnimate))
    {
      if animateScroll && shouldAnimate {
        isHAnimating := true;
        isVAnimating := true;
      } else {
        isHAnimating := true;
        horizontalScrollOffset := targetHorizontalOffset;
        isHAnimating := false;

        isVAnimating := true;
        verticalScrollOffset := targetVerticalOffset;
        isVAnimating := false;
      }
    }

    /** Setting TargetVerticalOffset and its change callback. */
    method SetTargetVerticalOffset(value: real, shouldAnimate: bool) returns (o: Outcome<Exception>)
      modifies this`targetVerticalOffset, this`aniVBar, this`isHAnimating, this`isVAnimating,
               this`horizontalScrollOffset, this`verticalScrollOffset
      ensures Moved(o, Now()) == SetTarget(old(Now()), Vertical, value, isVOverride, Animated(shouldAnimate))
    {
      o := Pass;
      if value != targetVerticalOffset {
        targetVerticalOffset := value;
        if aniVBar.None? {
          return Fail(NullReference);
        }
        aniVBar := Some(value);
        if !isVOverride {
          AnimateNow(shouldAnimate);
        }
      }
    }

    /** Setting TargetHorizontalOffset and its change callback. */
    method SetTargetHorizontalOffset(value: real, shouldAnimate: bool) returns (o: Outcome<Exception>)
      modifies this`targetHorizontalOffset, this`aniHBar, this`isHAnimating, this`isVAnimating,
               this`horizontalScrollOffset, this`verticalScrollOffset
      ensures Moved(o, Now()) == SetTarget(old(Now()), Horizontal, value, isHOverride, Animated(shouldAnimate))
    {
      o := Pass;
      if value != targetHorizontalOffset {
        targetHorizontalOffset := value;
        if aniHBar.None? {
          return Fail(NullReference);
        }
        aniHBar := Some(value);
        if !isHOverride {
          AnimateNow(shouldAnimate);
        }
      }
    }

    /** The tail every input handler shares, for the scroll s it chose. */
    method React(s: Scroll, wasHandled: bool, shouldAnimate: bool) returns (o: Outcome<Exception>, handled: bool)
      modifies this`targetVerticalOffset, this`targetHorizontalOffset, this`aniVBar, this`aniHBar,
               this`isHAnimating, this`isVAnimating, this`horizontalScrollOffset, this`verticalScrollOffset
      ensures Reaction(o, handled, Now())
           == HandleScroll(old(Now()), s, wasHandled, isVOverride, isHOverride, Animated(shouldAnimate))
    {
      o, handled := Pass, wasHandled;
      match s {
        case NoScroll =>
        case ScrollV(v) => o := SetTargetVerticalOffset(v, shouldAnimate);
        case ScrollH(h) => o := SetTargetHorizontalOffset(h, shouldAnimate);
      }
      if o.Fail? {
        return;
      }
      handled := handled || !s.NoScroll?;
      if handled {
        AnimateNow(shouldAnimate);
      }
    }

    /** HandleHWheel: the horizontal wheel. A null or already handled event changes nothing. */
    method HandleHWheel(e: Option<WheelArgs>, can: Ability, shouldAnimate: bool)
      returns (o: Outcome<Exception>, handled: bool)
      modifies this`targetVerticalOffset, this`targetHorizontalOffset, this`aniVBar, this`aniHBar,
               this`isHAnimating, this`isVAnimating, this`horizontalScrollOffset, this`verticalScrollOffset
      ensures e.None? || e.value.handled ==>
        o == Pass && handled == e.Some? && Now() == old(Now())
      ensures e.Some? && !e.value.handled ==>
        Reaction(o, handled, Now())
        == HandleScroll(old(Now()), HWheelScroll(e.value.delta, can, horizontalOffset, scrollableWidth),
                        false, isVOverride, isHOverride, Animated(shouldAnimate))
    {
      o, handled := Pass, e.Some? && e.value.handled;
      if e.Some? && !e.value.handled {
        var s := HWheelScroll(e.value.delta, can, horizontalOffset, scrollableWidth);
        o, handled := React(s, false, shouldAnimate);
      }
    }

    /** OnPreviewMouseWheel: the vertical wheel, with the horizontal fallback. */
    method OnPreviewMouseWheel(e: Option<WheelArgs>, can: Ability, simulateHWheel: bool, shouldAnimate: bool)
      returns (o: Outcome<Exception>, handled: bool)
      modifies this`targetVerticalOffset, this`targetHorizontalOffset, this`aniVBar, this`aniHBar,
               this`isHAnimating, this`isVAnimating, this`horizontalScrollOffset, this`verticalScrollOffset
      ensures e.None? || e.value.handled ==>
        o == Pass && handled == e.Some? && Now() == old(Now())
      ensures e.Some? && !e.value.handled ==>
        Reaction(o, handled, Now())
        == HandleScroll(old(Now()), WheelScroll(e.value.delta, can, simulateHWheel, verticalOffset, horizontalOffset,
                                                scrollableHeight, scrollableWidth),
                        false, isVOverride, isHOverride, Animated(shouldAnimate))
    {
      o, handled := Pass, e.Some? && e.value.handled;
      if e.Some? && !e.value.handled {
        var s := WheelScroll(e.value.delta, can, simulateHWheel, verticalOffset, horizontalOffset,
                             scrollableHeight, scrollableWidth);
        o, handled := React(s, false, shouldAnimate);
      }
    }

    /** OnKeyDown: acts only on a non-null event with no modifier keys and keyboard
        scrolling on. It does not look at whether the event was already handled, and
        it animates whenever the event ends up handled. */
    method OnKeyDown(e: Option<KeyArgs>, noModifiers: bool, can: Ability, shouldAnimate: bool)
      returns (o: Outcome<Exception>, handled: bool)
      modifies this`targetVerticalOffset, this`targetHorizontalOffset, this`aniVBar, this`aniHBar,
               this`isHAnimating, this`isVAnimating, this`horizontalScrollOffset, this`verticalScrollOffset
      ensures !(e.Some? && noModifiers && canKeyboardScroll) ==>
        o == Pass && handled == (e.Some? && e.value.handled) && Now() == old(Now())
      ensures e.Some? && noModifiers && canKeyboardScroll ==>
        Reaction(o, handled, Now())
        == HandleScroll(old(Now()), KeyScroll(e.value.key, can, verticalOffset, horizontalOffset, viewportHeight,
                                              scrollableHeight, scrollableWidth),
                        e.value.handled, isVOverride, isHOverride, Animated(shouldAnimate))
    {
      o, handled := Pass, e.Some? && e.value.handled;
      if e.Some? && noModifiers && canKeyboardScroll {
        var s := KeyScroll(e.value.key, can, verticalOffset, horizontalOffset, viewportHeight,
                           scrollableHeight, scrollableWidth);
        o, handled := React(s, e.value.handled, shouldAnimate);
      }
    }

    /** The real horizontal bar moved outside an animation: the target follows it
        under the override flag, so no new animation starts. A setter that throws
        leaves the flag set. */
    method RealHorizontalScrollBarValueChanged(newValue: real, shouldAnimate: bool) returns (o: Outcome<Exception>)
      modifies this`targetHorizontalOffset, this`aniHBar, this`isHAnimating, this`isVAnimating,
               this`horizontalScrollOffset, this`verticalScrollOffset, this`isHOverride
      ensures old(isHAnimating) ==> o == Pass && Now() == old(Now()) && isHOverride == old(isHOverride)
      ensures !old(isHAnimating) ==>
        && Moved(o, Now()) == SetTarget(old(Now()), Horizontal, newValue, true, Animated(shouldAnimate))
        && isHOverride == o.Fail?
    {
      o := Pass;
      if !isHAnimating {
        isHOverride := true;
        o := SetTargetHorizontalOffset(newValue, shouldAnimate);
        if o.Fail? {
          return;
        }
        isHOverride := false;
      }
    }

    /** The real vertical bar moved outside an animation. */
    method RealVerticalScrollBarValueChanged(newValue: real, shouldAnimate: bool) returns (o: Outcome<Exception>)
      modifies this`targetVerticalOffset, this`aniVBar, this`isHAnimating, this`isVAnimating,
               this`horizontalScrollOffset, this`verticalScrollOffset, this`isVOverride
      ensures old(isVAnimating) ==> o == Pass && Now() == old(Now()) && isVOverride == old(isVOverride)
      ensures !old(isVAnimating) ==>
        && Moved(o, Now()) == SetTarget(old(Now()), Vertical, newValue, true, Animated(shouldAnimate))
        && isVOverride == o.Fail?
    {
      o := Pass;
      if !isVAnimating {
        isVOverride := true;
        o := SetTargetVerticalOffset(newValue, shouldAnimate);
        if o.Fail? {
          return;
        }
        isVOverride := false;
      }
    }

    /** The animated vertical bar changed from oldValue to newValue; roundedDelta is
        `Math.Round(newValue - oldValue, 3)`. Nothing happens when the new value already
        is the target. */
    method AniVScrollBarValueChanged(oldValue: real, newValue: real, roundedDelta: real, shouldAnimate: bool)
      returns (o: Outcome<Exception>)
      modifies this`targetVerticalOffset, this`aniVBar, this`isHAnimating, this`isVAnimating,
               this`horizontalScrollOffset, this`verticalScrollOffset
      ensures newValue == old(targetVerticalOffset) ==> o == Pass && Now() == old(Now())
      ensures newValue != old(targetVerticalOffset) ==>
        Moved(o, Now()) == SetTarget(old(Now()), Vertical, AniBarTarget(oldValue, newValue, roundedDelta, viewportHeight),
                                     isVOverride, Animated(shouldAnimate))
    {
      o := Pass;
      if newValue != targetVerticalOffset {
        o := SetTargetVerticalOffset(AniBarTarget(oldValue, newValue, roundedDelta, viewportHeight), shouldAnimate);
      }
    }

    /** The animated horizontal bar changed. */
    method AniHScrollBarValueChanged(oldValue: real, newValue: real, roundedDelta: real, shouldAnimate: bool)
      returns (o: Outcome<Exception>)
      modifies this`targetHorizontalOffset, this`aniHBar, this`isHAnimating, this`isVAnimating,
               this`horizontalScrollOffset, this`verticalScrollOffset
      ensures newValue == old(targetHorizontalOffset) ==> o == Pass && Now() == old(Now())
      ensures newValue != old(targetHorizontalOffset) ==>
        Moved(o, Now()) == SetTarget(old(Now()), Horizontal, AniBarTarget(oldValue, newValue, roundedDelta, viewportWidth),
                                     isHOverride, Animated(shouldAnimate))
    {
      o := Pass;
      if newValue != targetHorizontalOffset {
        o := SetTargetHorizontalOffset(AniBarTarget(oldValue, newValue, roundedDelta, viewportWidth), shouldAnimate);
      }
    }
  }

}
