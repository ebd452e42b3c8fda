/** The pointer motion of the site (components/site-motion.tsx): an easing loop over animation frames, over the reals. */
module SiteMotion {
  import opened Prelude

  datatype Rect = Rect(left: real, top: real, width: real, height: real)

  /** A motion target without its element and its handlers. */
  datatype Motion = Motion(
    currentX: real, currentY: real, targetX: real, targetY: real, pointerX: real, pointerY: real, inside: bool)

  const EASING: real := 0.14
  const EPSILON: real := 0.002

  function Abs(x: real): real {
    if x < 0.0 then -x else x
  }

  function ClampMotion(value: real): (r: real)
    ensures -1.0 <= r <= 1.0 && (-1.0 <= value <= 1.0 ==> r == value)
  {
    var low := if value < -1.0 then -1.0 else value;
    if low > 1.0 then 1.0 else low
  }

  function Ease(current: real, target: real): real {
    if Abs(target - current) <= EPSILON then target else current + (target - current) * EASING
  }

  /**
   A coordinate moves fourteen hundredths of its way at a time, and all of what is left once that is two thousandths at
   most, in the same way in both directions.
   */
  lemma EasingIsGradual(current: real, target: real)
    ensures var next := Ease(current, target);
            if target - 0.002 <= current <= target + 0.002 then next == target
            else next - current == 0.14 * (target - current)
    ensures Ease(-current, -target) == -Ease(current, target)
  {
  }

  /** The target follows the pointer for as long as it is inside an element of some size. */
  function Aim(m: Motion, rect: Rect): Motion {
    if !m.inside || rect.width <= 0.0 || rect.height <= 0.0 then m
    else m.(targetX := ClampMotion((((m.pointerX - rect.left) / rect.width) - 0.5) * 2.0),
            targetY := ClampMotion((((m.pointerY - rect.top) / rect.height) - 0.5) * 2.0))
  }

  function Move(m: Motion): Motion {
    m.(currentX := Ease(m.currentX, m.targetX), currentY := Ease(m.currentY, m.targetY))
  }

  /** One turn of the loop of `runFrame`. */
  function Advance(m: Motion, rect: Rect): Motion {
    Move(Aim(m, rect))
  }

  predicate AtRest(m: Motion) {
    m.currentX == m.targetX && m.currentY == m.targetY
  }

  /**
   The target follows the pointer across the element: -1 at its left and top edges, 1 at its right and bottom edges, 0 in
   the middle, in proportion between and no further beyond, each coordinate by itself.
   */
  lemma AimFollowsPointer(m: Motion, rect: Rect)
    requires m.inside && rect.width > 0.0 && rect.height > 0.0
    ensures var aimed := Aim(m, rect);
            && FollowsAcross(m.pointerX, rect.left, rect.width, aimed.targetX)
            && FollowsAcross(m.pointerY, rect.top, rect.height, aimed.targetY)
            && aimed == m.(targetX := aimed.targetX, targetY := aimed.targetY)
  {
    AcrossIsFollowed(m.pointerX, rect.left, rect.width);
    AcrossIsFollowed(m.pointerY, rect.top, rect.height);
  }

  predicate FollowsAcross(pointer: real, start: real, extent: real, target: real) {
    if pointer <= start then target == -1.0
    else if pointer >= start + extent then target == 1.0
    else target * extent == (pointer - start) - (start + extent - pointer)
  }

  lemma SignOfProduct(d: real, extent: real)
    requires extent > 0.0
    ensures d * extent > 0.0 <==> d > 0.0
    ensures d * extent < 0.0 <==> d < 0.0
  {
  }

  lemma SignOfShare(share: real, distance: real, extent: real)
    requires extent > 0.0 && share * extent == distance
    ensures distance <= 0.0 <==> share <= 0.0
  {
    SignOfProduct(share, extent);
  }

  lemma ShareBeyondOne(share: real, distance: real, extent: real)
    requires extent > 0.0 && share * extent == distance
    ensures distance >= extent <==> share >= 1.0
  {
    var beyond := share - 1.0;
    assert beyond * extent == distance - extent;
    SignOfProduct(beyond, extent);
  }

  lemma ShareOfExtent(share: real, distance: real, extent: real)
    requires extent > 0.0 && share * extent == distance
    ensures distance <= 0.0 <==> share <= 0.0
    ensures distance >= extent <==> share >= 1.0
    ensures ((share - 0.5) * 2.0) * extent == 2.0 * distance - extent
  {
    SignOfShare(share, distance, extent);
    ShareBeyondOne(share, distance, extent);
    assert ((share - 0.5) * 2.0) * extent == 2.0 * (share * extent) - extent;
  }

  lemma AcrossIsFollowed(pointer: real, start: real, extent: real)
    requires extent > 0.0
    ensures FollowsAcross(pointer, start, extent, ClampMotion((((pointer - start) / extent) - 0.5) * 2.0))
  {
    var distance := pointer - start;
    var share := distance / extent;
    ShareOfExtent(share, distance, extent);
    var target := (share - 0.5) * 2.0;
    assert share <= 0.0 ==> target <= -1.0;
    assert share >= 1.0 ==> target >= 1.0;
    assert 0.0 < share < 1.0 ==> -1.0 < target < 1.0;
  }

  // ----- the effect

  /** `frame` is the handle of the requested frame or 0; `callbacks` are the frames the browser still has to call. */
  datatype Site = Site(enabled: bool, mounted: bool, frame: nat, callbacks: set<nat>, handles: nat, targets: seq<Motion>)

  datatype Event =
    | PointerMoves(index: nat, x: real, y: real)
    | PointerLeaves(index: nat)
    | FrameFires(handle: nat, rects: seq<Rect>)
    | ModeChanges(shouldEnable: bool, elements: nat)
    | Unmounts

  function ScheduleFrame(s: Site): Site {
    if s.frame != 0 then s
    else s.(frame := s.handles + 1, callbacks := s.callbacks + {s.handles + 1}, handles := s.handles + 1)
  }

  function RectOf(rects: seq<Rect>, index: nat): Rect {
    if index < |rects| then rects[index] else Rect(0.0, 0.0, 0.0, 0.0)
  }

  function AdvanceAll(targets: seq<Motion>, rects: seq<Rect>): seq<Motion> {
    seq(|targets|, i requires 0 <= i < |targets| => Advance(targets[i], RectOf(rects, i)))
  }

  function RunFrame(s: Site, rects: seq<Rect>): Site {
    var moved := s.(frame := 0, targets := AdvanceAll(s.targets, rects));
    if forall i :: 0 <= i < |moved.targets| ==> AtRest(moved.targets[i]) then moved else ScheduleFrame(moved)
  }

  function Detach(s: Site): Site {
    s.(enabled := false, callbacks := if s.frame != 0 then s.callbacks - {s.frame} else s.callbacks, frame := 0,
       targets := [])
  }

  function Attach(s: Site, elements: nat): Site {
    s.(enabled := true, targets := seq(elements, i => Motion(0.0, 0.0, 0.0, 0.0, 0.0, 0.0, false)))
  }

  function Step(s: Site, e: Event): Site {
    match e
    case PointerMoves(i, x, y) =>
      if i < |s.targets|
      then ScheduleFrame(s.(targets := s.targets[i := s.targets[i].(pointerX := x, pointerY := y, inside := true)]))
      else s
    case PointerLeaves(i) =>
      if i < |s.targets|
      then ScheduleFrame(s.(targets := s.targets[i := s.targets[i].(inside := false, targetX := 0.0, targetY := 0.0)]))
      else s
    case FrameFires(handle, rects) =>
      if handle in s.callbacks then RunFrame(s.(callbacks := s.callbacks - {handle}), rects) else s
    case ModeChanges(shouldEnable, elements) =>
      if !s.mounted || shouldEnable == s.enabled then s else if shouldEnable then Attach(s, elements) else Detach(s)
    case Unmounts => Detach(s).(mounted := false)
  }

  function Run(s: Site, events: seq<Event>): Site
    decreases |events|
  {
    if events == [] then s else Run(Step(s, events[0]), events[1..])
  }

  function Mounted(): Site {
    Site(false, true, 0, {}, 0, [])
  }

  // ----- what every step keeps

  predicate Inside(m: Motion) {
    && -1.0 <= m.currentX <= 1.0 && -1.0 <= m.currentY <= 1.0
    && -1.0 <= m.targetX <= 1.0 && -1.0 <= m.targetY <= 1.0
  }

  predicate FramesSound(s: Site) {
    && s.callbacks == (if s.frame == 0 then {} else {s.frame})
    && s.frame <= s.handles
    && (!s.enabled ==> s.targets == [] && s.frame == 0)
    && (!s.mounted ==> !s.enabled)
  }

  ghost predicate TargetsSound(s: Site) {
    forall i :: 0 <= i < |s.targets| ==> Inside(s.targets[i]) && (s.frame == 0 ==> AtRest(s.targets[i]))
  }

  lemma EaseStaysBetween(current: real, target: real)
    requires -1.0 <= current <= 1.0 && -1.0 <= target <= 1.0
    ensures -1.0 <= Ease(current, target) <= 1.0
  {
  }

  lemma AdvanceStaysInside(m: Motion, rect: Rect)
    requires Inside(m)
    ensures Inside(Advance(m, rect))
  {
    var aimed := Aim(m, rect);
    assert Inside(aimed) by { hide ClampMotion; }
    EaseStaysBetween(aimed.currentX, aimed.targetX);
    EaseStaysBetween(aimed.currentY, aimed.targetY);
    hide Ease, Aim;
  }

  lemma FrameKeepsTargets(s: Site, rects: seq<Rect>)
    requires TargetsSound(s)
    ensures TargetsSound(RunFrame(s, rects))
  {
    forall i | 0 <= i < |s.targets| ensures Inside(AdvanceAll(s.targets, rects)[i]) {
      AdvanceStaysInside(s.targets[i], RectOf(rects, i));
    }
    hide Advance, Inside, AtRest;
  }

  lemma StepKeeps(s: Site, e: Event)
    requires FramesSound(s) && TargetsSound(s)
    ensures FramesSound(Step(s, e)) && TargetsSound(Step(s, e))
  {
    if e.FrameFires? && e.handle in s.callbacks {
      FrameKeepsTargets(s.(callbacks := s.callbacks - {e.handle}), e.rects);
      hide TargetsSound, AtRest;
    }
    hide AdvanceAll;
  }

  /**
   Through any events every coordinate stays within [-1, 1]; at most one frame is requested, the one whose handle is
   kept; when none is, every element is at its target; and when motion is off, or the page left, none ever is.
   */
  lemma {:induction false} EveryRunIsSound(s: Site, events: seq<Event>)
    requires FramesSound(s) && TargetsSound(s)
    ensures var r := Run(s, events);
            && FramesSound(r) && TargetsSound(r) && |r.callbacks| <= 1 && (!r.enabled ==> r.callbacks == {})
    decreases |events|
  {
    if events != [] {
      StepKeeps(s, events[0]);
      hide FramesSound, TargetsSound, Step;
      EveryRunIsSound(Step(s, events[0]), events[1..]);
    }
  }

  /** From the page's first render on. */
  lemma MountedRunIsSound(events: seq<Event>)
    ensures var r := Run(Mounted(), events);
            && (forall i :: 0 <= i < |r.targets| ==> Inside(r.targets[i]) && (r.frame == 0 ==> AtRest(r.targets[i])))
            && r.callbacks == (if r.frame == 0 then {} else {r.frame}) && (!r.enabled ==> r.callbacks == {})
  {
    EveryRunIsSound(Mounted(), events);
    hide Run;
  }

  // ----- convergence

  function Decay(frames: nat): real {
    if frames == 0 then 1.0 else 0.86 * Decay(frames - 1)
  }

  lemma {:induction false} DecayAdds(a: nat, b: nat)
    ensures Decay(a + b) == Decay(a) * Decay(b)
  {
    if a > 0 {
      DecayAdds(a - 1, b);
      assert Decay(a + b) == 0.86 * (Decay(a - 1) * Decay(b));
    }
  }

  /** Bounds on the powers of 0.86 that decide how many frames a full swing takes. */
  lemma DecayBounds()
    ensures Decay(46) <= 0.001 && Decay(45) > 0.001
  {
    assert Decay(2) == 0.7396 by { assert Decay(1) == 0.86; }
    DecayAdds(2, 2);
    assert 0.547 <= Decay(4) <= 0.54701;
    DecayAdds(4, 4);
    Square(Decay(4), 0.547, 0.54701);
    assert 0.2992 <= Decay(8) <= 0.29923;
    DecayAdds(8, 8);
    Square(Decay(8), 0.2992, 0.29923);
    assert 0.0895 <= Decay(16) <= 0.08954;
    DecayAdds(16, 16);
    Square(Decay(16), 0.0895, 0.08954);
    assert 0.00801 <= Decay(32) <= 0.00802;
    DecayAdds(32, 8);
    Product(Decay(32), 0.00801, 0.00802, Decay(8), 0.2992, 0.29923);
    assert 0.002396 <= Decay(40) <= 0.0024;
    DecayAdds(40, 4);
    Product(Decay(40), 0.002396, 0.0024, Decay(4), 0.547, 0.54701);
    assert 0.00131 <= Decay(44) <= 0.001313;
  }

  lemma Product(x: real, xLow: real, xHigh: real, y: real, yLow: real, yHigh: real)
    requires 0.0 <= xLow <= x <= xHigh && 0.0 <= yLow <= y <= yHigh
    ensures xLow * yLow <= x * y <= xHigh * yHigh
  {
    assert xLow * yLow <= x * yLow <= x * y <= xHigh * y <= xHigh * yHigh;
  }

  lemma Square(x: real, low: real, high: real)
    requires 0.0 <= low <= x <= high
    ensures low * low <= x * x <= high * high
  {
    Product(x, low, high, x, low, high);
  }

  function EaseTimes(current: real, target: real, frames: nat): real {
    if frames == 0 then current else Ease(EaseTimes(current, target, frames - 1), target)
  }

  lemma {:induction false} EasingDecays(current: real, target: real, frames: nat)
    requires Abs(target - current) <= 2.0
    ensures Abs(target - EaseTimes(current, target, frames)) <= 2.0 * Decay(frames)
  {
    if frames > 0 {
      EasingDecays(current, target, frames - 1);
      DecayIsPositive(frames - 1);
    }
  }

  lemma {:induction false} DecayIsPositive(frames: nat)
    ensures Decay(frames) > 0.0
  {
    if frames > 0 {
      DecayIsPositive(frames - 1);
    }
  }

  /** Forty-seven frames bring a coordinate onto its target exactly. */
  lemma FortySevenFramesLand(current: real, target: real)
    requires -1.0 <= current <= 1.0 && -1.0 <= target <= 1.0
    ensures EaseTimes(current, target, 47) == target
  {
    EasingDecays(current, target, 46);
    DecayBounds();
    hide Decay;
    assert EaseTimes(current, target, 47) == Ease(EaseTimes(current, target, 46), target);
  }

  /** A swing from one edge to the other shrinks by the exact factor until it lands, and takes all forty-seven. */
  lemma {:induction false} FullSwingIsExact(frames: nat)
    requires frames <= 46
    ensures 1.0 - EaseTimes(-1.0, 1.0, frames) == 2.0 * Decay(frames)
  {
    if frames > 0 {
      FullSwingIsExact(frames - 1);
      DecayDecreases(frames - 1, 45);
      DecayBounds();
    }
  }

  lemma {:induction false} DecayDecreases(a: nat, b: nat)
    requires a <= b
    ensures Decay(b) <= Decay(a)
    decreases b - a
  {
    if a < b {
      DecayDecreases(a, b - 1);
      DecayIsPositive(b - 1);
    }
  }

  lemma FullSwingTakesAll()
    ensures EaseTimes(-1.0, 1.0, 46) != 1.0 && EaseTimes(-1.0, 1.0, 47) == 1.0
  {
    FullSwingIsExact(46);
    DecayIsPositive(46);
    FortySevenFramesLand(-1.0, 1.0);
  }

  // ----- the whole loop

  /** `count` frames in a row, nothing else happening and the elements staying where they are. */
  function FrameTimes(s: Site, rects: seq<Rect>, count: nat): Site {
    if count == 0 then s
    else
      var before := FrameTimes(s, rects, count - 1);
      Step(before, FrameFires(before.frame, rects))
  }

  function Eased(m: Motion, count: nat): Motion {
    m.(currentX := EaseTimes(m.currentX, m.targetX, count), currentY := EaseTimes(m.currentY, m.targetY, count))
  }

  lemma AimingTwiceIsOnce(m: Motion, rect: Rect, count: nat)
    ensures Aim(Eased(Aim(m, rect), count), rect) == Eased(Aim(m, rect), count)
    ensures Advance(Eased(Aim(m, rect), count), rect) == Eased(Aim(m, rect), count + 1)
    ensures Advance(m, rect) == Eased(Aim(m, rect), 1)
    ensures AtRest(Eased(Aim(m, rect), count)) ==> Eased(Aim(m, rect), count + 1) == Eased(Aim(m, rect), count)
  {
    hide ClampMotion;
    var a := Aim(m, rect);
    assert EaseTimes(a.currentX, a.targetX, 1) == Ease(a.currentX, a.targetX);
    assert EaseTimes(a.currentY, a.targetY, 1) == Ease(a.currentY, a.targetY);
  }

  ghost predicate AllAtRest(targets: seq<Motion>) {
    forall i :: 0 <= i < |targets| ==> AtRest(targets[i])
  }

  lemma OneFrame(s: Site, rects: seq<Rect>)
    requires FramesSound(s) && TargetsSound(s)
    ensures var r := Step(s, FrameFires(s.frame, rects));
            && FramesSound(r) && TargetsSound(r)
            && (if s.frame == 0 then r == s && AllAtRest(s.targets)
                else r.targets == AdvanceAll(s.targets, rects) && (r.frame == 0 <==> AllAtRest(r.targets)))
  {
    StepKeeps(s, FrameFires(s.frame, rects));
    hide AdvanceAll, AtRest, Inside;
  }

  /** The targets after some frames, in closed form, whether or not the loop has stopped in between. */
  lemma {:induction false} FramesEase(s: Site, rects: seq<Rect>, count: nat)
    requires FramesSound(s) && TargetsSound(s) && s.frame != 0 && count >= 1
    ensures var r := FrameTimes(s, rects, count);
            && FramesSound(r) && TargetsSound(r) && |r.targets| == |s.targets|
            && (forall i :: 0 <= i < |s.targets| ==> r.targets[i] == Eased(Aim(s.targets[i], RectOf(rects, i)), count))
            && (r.frame == 0 <==> AllAtRest(r.targets))
  {
    var before := FrameTimes(s, rects, count - 1);
    if count > 1 {
      FramesEase(s, rects, count - 1);
    } else {
      assert before == s;
    }
    OneFrame(before, rects);
    var r := FrameTimes(s, rects, count);
    hide TargetsSound, FramesSound, Step, Advance, Eased, AtRest;
    forall i | 0 <= i < |s.targets| ensures r.targets[i] == Eased(Aim(s.targets[i], RectOf(rects, i)), count) {
      AimingTwiceIsOnce(s.targets[i], RectOf(rects, i), count - 1);
    }
  }

  /**
   With fixed elements and pointer the loop stops within forty-seven frames, for any number of elements, each of them
   exactly where it was heading.
   */
  lemma LoopStops(s: Site, rects: seq<Rect>)
    requires FramesSound(s) && TargetsSound(s) && s.frame != 0
    ensures var r := FrameTimes(s, rects, 47);
            && r.frame == 0 && r.callbacks == {} && |r.targets| == |s.targets|
            && forall i :: 0 <= i < |s.targets| ==>
                 var aimed := Aim(s.targets[i], RectOf(rects, i));
                 r.targets[i] == aimed.(currentX := aimed.targetX, currentY := aimed.targetY)
  {
    FramesEase(s, rects, 47);
    var r := FrameTimes(s, rects, 47);
    forall i | 0 <= i < |s.targets|
      ensures var aimed := Aim(s.targets[i], RectOf(rects, i));
              r.targets[i] == aimed.(currentX := aimed.targetX, currentY := aimed.targetY)
    {
      var aimed := Aim(s.targets[i], RectOf(rects, i));
      assert Inside(aimed) by { hide ClampMotion; }
      FortySevenFramesLand(aimed.currentX, aimed.targetX);
      FortySevenFramesLand(aimed.currentY, aimed.targetY);
    }
    hide FrameTimes;
    assert AllAtRest(r.targets);
  }

  /** After a movement of the pointer over an element, with nothing further, it ends where the pointer is across it. */
  lemma MovementIsFollowed(s: Site, index: nat, x: real, y: real, rects: seq<Rect>)
    requires FramesSound(s) && TargetsSound(s) && index < |s.targets|
    requires RectOf(rects, index).width > 0.0 && RectOf(rects, index).height > 0.0
    ensures var moved := Step(s, PointerMoves(index, x, y));
            var r, rect := FrameTimes(moved, rects, 47), RectOf(rects, index);
            && moved.frame != 0 && moved.frame in moved.callbacks
            && r.frame == 0 && |r.targets| == |s.targets|
            && FollowsAcross(x, rect.left, rect.width, r.targets[index].currentX)
            && FollowsAcross(y, rect.top, rect.height, r.targets[index].currentY)
  {
    var moved := Step(s, PointerMoves(index, x, y));
    StepKeeps(s, PointerMoves(index, x, y));
    assert moved.targets[index] == s.targets[index].(pointerX := x, pointerY := y, inside := true);
    LoopStops(moved, rects);
    AimFollowsPointer(moved.targets[index], RectOf(rects, index));
    hide FramesSound, TargetsSound, FrameTimes, Step, FollowsAcross, RectOf, Aim;
  }

  /** The pointer is not on the element, which is to go back to its centre. */
  predicate Returning(s: Site, index: nat) {
    index < |s.targets| && !s.targets[index].inside && s.targets[index].targetX == 0.0 && s.targets[index].targetY == 0.0
  }

  /** Neither a pointer on that element nor another set of elements. */
  predicate LeavesAlone(events: seq<Event>, index: nat) {
    forall i :: 0 <= i < |events| ==>
      !events[i].ModeChanges? && !events[i].Unmounts? && !(events[i].PointerMoves? && events[i].index == index)
  }

  lemma StepReturns(s: Site, e: Event, index: nat)
    requires Returning(s, index) && LeavesAlone([e], index)
    ensures Returning(Step(s, e), index)
  {
    assert [e][0] == e;
    hide Ease, ClampMotion, AtRest;
  }

  lemma {:induction false} RunReturns(s: Site, events: seq<Event>, index: nat)
    requires FramesSound(s) && TargetsSound(s) && Returning(s, index) && LeavesAlone(events, index)
    ensures var r := Run(s, events); FramesSound(r) && TargetsSound(r) && Returning(r, index)
    decreases |events|
  {
    if events != [] {
      assert LeavesAlone([events[0]], index) && LeavesAlone(events[1..], index) by {
        assert events[0] == [events[0]][0];
      }
      StepReturns(s, events[0], index);
      StepKeeps(s, events[0]);
      hide FramesSound, TargetsSound, Returning, LeavesAlone, Step;
      RunReturns(Step(s, events[0]), events[1..], index);
    }
  }

  /**
   Once the pointer has left an element, and whatever it does on the others: as soon as the loop stops, which it does
   within forty-seven frames without further events, the element is back at its centre, unless the pointer came again.
   */
  lemma LeavingReturns(s: Site, index: nat, events: seq<Event>, rects: seq<Rect>)
    requires FramesSound(s) && TargetsSound(s) && index < |s.targets| && LeavesAlone(events, index)
    ensures var r := Run(Step(s, PointerLeaves(index)), events);
            && index < |r.targets|
            && (r.frame == 0 ==> r.targets[index].currentX == 0.0 && r.targets[index].currentY == 0.0)
            && (r.frame != 0 ==>
                  var end := FrameTimes(r, rects, 47);
                  && end.frame == 0 && index < |end.targets|
                  && end.targets[index].currentX == 0.0 && end.targets[index].currentY == 0.0)
    ensures Step(s, PointerLeaves(index)).frame != 0
  {
    var left := Step(s, PointerLeaves(index));
    StepKeeps(s, PointerLeaves(index));
    assert Returning(left, index);
    RunReturns(left, events, index);
    hide Run, Step;
    var r := Run(left, events);
    if r.frame != 0 {
      LoopStops(r, rects);
      hide FrameTimes;
      assert Aim(r.targets[index], RectOf(rects, index)) == r.targets[index];
    }
  }

  /** Switching motion on finds every element at its centre and asks for no frame; switching it off leaves nothing. */
  lemma ModeSwitches(s: Site, shouldEnable: bool, elements: nat)
    requires FramesSound(s) && s.mounted
    ensures var r := Step(s, ModeChanges(shouldEnable, elements));
            && r.enabled == shouldEnable && FramesSound(r)
            && (shouldEnable == s.enabled ==> r == s)
            && (shouldEnable && !s.enabled ==>
                  |r.targets| == elements && r.frame == 0
                  && forall i :: 0 <= i < elements ==> r.targets[i].currentX == r.targets[i].currentY == 0.0
                                                       && AtRest(r.targets[i]) && !r.targets[i].inside)
            && (!shouldEnable ==> r.targets == [] && r.callbacks == {})
  {
  }

  /** Once the page is left nothing moves or is asked for any more, whatever still happens. */
  lemma {:induction false} LeftPageIsStill(s: Site, events: seq<Event>)
    requires FramesSound(s)
    ensures var gone := Step(s, Unmounts);
            gone.targets == [] && gone.callbacks == {} && !gone.enabled && Run(gone, events) == gone
    decreases |events|
  {
    var gone := Step(s, Unmounts);
    if events != [] {
      assert Step(gone, events[0]) == gone == Step(gone, Unmounts);
      hide Step;
      LeftPageIsStill(gone, events[1..]);
    }
  }

  /** No smaller number does: one element swinging across still asks for a frame after the forty-sixth. */
  lemma LoopNeedsThemAll(s: Site)
    requires FramesSound(s) && TargetsSound(s) && s.frame != 0 && |s.targets| == 1
    requires s.targets[0] == Motion(-1.0, 0.0, 0.0, 0.0, 1.0, 0.5, true)
    ensures FrameTimes(s, [Rect(0.0, 0.0, 1.0, 1.0)], 46).frame != 0
  {
    var rects := [Rect(0.0, 0.0, 1.0, 1.0)];
    var aimed := Aim(s.targets[0], RectOf(rects, 0));
    assert aimed.targetX == 1.0 && aimed.currentX == -1.0;
    FullSwingTakesAll();
    FramesEase(s, rects, 46);
    hide FrameTimes, EaseTimes, Aim, FramesSound, TargetsSound, RectOf;
    var r := FrameTimes(s, rects, 46);
    assert r.targets[0] == Eased(aimed, 46);
    assert !AtRest(r.targets[0]);
  }

  // ----- in the form of the source

  class MotionTarget {
    var currentX: real
    var currentY: real
    var targetX: real
    var targetY: real
    var lastPointerX: real
    var lastPointerY: real
    var pointerInside: bool

    constructor ()
      ensures View() == Motion(0.0, 0.0, 0.0, 0.0, 0.0, 0.0, false)
    {
      currentX, currentY, targetX, targetY, lastPointerX, lastPointerY := 0.0, 0.0, 0.0, 0.0, 0.0, 0.0;
      pointerInside := false;
    }

    function View(): Motion
      reads this
    {
      Motion(currentX, currentY, targetX, targetY, lastPointerX, lastPointerY, pointerInside)
    }

    /** The body of the loop of `runFrame`; `moving` asks for another frame. */
    method OnFrame(rect: Rect) returns (moving: bool)
      modifies this
      ensures View() == Advance(old(View()), rect) && moving == !AtRest(View())
    {
      if pointerInside {
        if rect.width > 0.0 && rect.height > 0.0 {
          targetX := ClampMotion((((lastPointerX - rect.left) / rect.width) - 0.5) * 2.0);
          targetY := ClampMotion((((lastPointerY - rect.top) / rect.height) - 0.5) * 2.0);
        }
      }
      hide ClampMotion;
      var nextX := if Abs(targetX - currentX) <= EPSILON then targetX else currentX + (targetX - currentX) * EASING;
      var nextY := if Abs(targetY - currentY) <= EPSILON then targetY else currentY + (targetY - currentY) * EASING;
      currentX := nextX;
      currentY := nextY;
      moving := nextX != targetX || nextY != targetY;
    }
  }

  class MotionEffect {
    var enabled: bool
    var mounted: bool
    var frame: nat
    ghost var callbacks: set<nat>
    var handles: nat
    var targets: seq<MotionTarget>

    ghost predicate Valid()
      reads this
    {
      Distinct(targets)
    }

    ghost function Motions(): seq<Motion>
      reads this, targets
    {
      seq(|targets|, i requires 0 <= i < |targets| reads this, targets => targets[i].View())
    }

    ghost function View(): Site
      reads this, targets
    {
      Site(enabled, mounted, frame, callbacks, handles, Motions())
    }

    constructor ()
      ensures Valid() && View() == Mounted()
    {
      enabled, mounted, frame, callbacks, handles, targets := false, true, 0, {}, 0, [];
    }

    method RequestFrame()
      modifies this`frame, this`callbacks, this`handles
      ensures View() == ScheduleFrame(old(View()))
    {
      if frame != 0 { return; }
      handles := handles + 1;
      frame := handles;
      callbacks := callbacks + {handles};
    }

    /** The loop of `runFrame`. */
    method AdvanceTargets(rects: seq<Rect>) returns (needsAnotherFrame: bool)
      requires Valid()
      modifies targets
      ensures Motions() == AdvanceAll(old(Motions()), rects)
      ensures needsAnotherFrame <==> !AllAtRest(Motions())
    {
      hide Advance, AtRest;
      ghost var before := Motions();
      needsAnotherFrame := false;
      for i := 0 to |targets|
        invariant forall k :: 0 <= k < i ==> targets[k].View() == Advance(before[k], RectOf(rects, k))
        invariant forall k :: i <= k < |targets| ==> targets[k].View() == before[k]
        invariant needsAnotherFrame <==> exists k :: 0 <= k < i && !AtRest(targets[k].View())
      {
        var moving := targets[i].OnFrame(RectOf(rects, i));
        needsAnotherFrame := needsAnotherFrame || moving;
      }
      assert forall k :: 0 <= k < |targets| ==> Motions()[k] == targets[k].View();
    }

    /** `runFrame`, called by the browser, which has taken the frame off its list. */
    method OnFrame(rects: seq<Rect>)
      requires Valid() && frame in callbacks && frame != 0
      modifies this, targets
      ensures Valid() && targets == old(targets)
      ensures View() == Step(old(View()), FrameFires(old(frame), rects))
    {
      hide AdvanceAll, AtRest;
      ghost var before := Motions();
      callbacks := callbacks - {frame};
      frame := 0;
      assert Motions() == before;
      var needsAnotherFrame := AdvanceTargets(rects);
      if needsAnotherFrame {
        RequestFrame();
      }
    }

    method OnPointerMove(index: nat, x: real, y: real)
      requires Valid() && index < |targets|
      modifies this, targets
      ensures Valid() && targets == old(targets)
      ensures View() == Step(old(View()), PointerMoves(index, x, y))
    {
      var target := targets[index];
      target.lastPointerX, target.lastPointerY, target.pointerInside := x, y, true;
      assert Motions() == old(Motions())[index := target.View()];
      RequestFrame();
    }

    method OnPointerLeave(index: nat)
      requires Valid() && index < |targets|
      modifies this, targets
      ensures Valid() && targets == old(targets)
      ensures View() == Step(old(View()), PointerLeaves(index))
    {
      var target := targets[index];
      target.pointerInside, target.targetX, target.targetY := false, 0.0, 0.0;
      assert Motions() == old(Motions())[index := target.View()];
      RequestFrame();
    }

    method DetachTargets()
      modifies this
      ensures Valid() && View() == Detach(old(View()))
    {
      enabled := false;
      if frame != 0 { callbacks := callbacks - {frame}; }
      frame := 0;
      targets := [];
    }

    method AttachTargets(elements: nat)
      modifies this
      ensures Valid() && View() == Attach(old(View()), elements) && fresh(targets)
    {
      enabled := true;
      var attached: seq<MotionTarget> := [];
      for i := 0 to elements
        invariant |attached| == i && fresh(attached) && Distinct(attached)
        invariant enabled && unchanged(`mounted, `frame, `callbacks, `handles)
        invariant forall k :: 0 <= k < i ==> attached[k].View() == Motion(0.0, 0.0, 0.0, 0.0, 0.0, 0.0, false)
      {
        var target := new MotionTarget();
        attached := attached + [target];
      }
      targets := attached;
      assert Motions() == Attach(old(View()), elements).targets;
    }

    method SyncMotionMode(shouldEnable: bool, elements: nat)
      requires Valid() && mounted
      modifies this
      ensures Valid() && View() == Step(old(View()), ModeChanges(shouldEnable, elements))
    {
      if shouldEnable == enabled { return; }
      if shouldEnable { AttachTargets(elements); } else { DetachTargets(); }
    }

    method OnUnmount()
      modifies this
      ensures Valid() && View() == Step(old(View()), Unmounts)
    {
      DetachTargets();
      mounted := false;
    }
  }
}
