/** The touch and pointer handlers of src/controls/touchControls.js. Unlike
    src/controls/touch.js they track the touch or pointer that started a gesture by its
    identifier and ignore the others. Three trackers exist: the movement pad (`startL`,
    `leftId`, shared by touches and pointers), the look stick's touch (`R`) and its pointer
    (`Rptr`); capture-phase handlers on the root also start and drive the look stick from
    anywhere on the right half of the window. */
module TouchControls {
  import opened Maths
  import opened Wrappers
  import opened Entities
  import opened Stick

  /** The first touch of `touches` with identifier `id`, as a value; a missing identifier
      (`null`) matches no touch. */
  function FirstWith(touches: seq<TouchPoint>, id: Option<int>): (t: Option<TouchPoint>)
    ensures t.None? <==> forall k :: 0 <= k < |touches| ==> Some(touches[k].id) != id
    ensures t.Some? ==> exists k :: 0 <= k < |touches| && touches[k] == t.value &&
                          Some(touches[k].id) == id &&
                          forall j :: 0 <= j < k ==> Some(touches[j].id) != id
  {
    if touches == [] then None
    else if Some(touches[0].id) == id then Some(touches[0])
    else
      var rest := FirstWith(touches[1..], id);
      assert rest.Some? ==> exists k :: 1 <= k < |touches| && touches[k] == rest.value &&
                              Some(touches[k].id) == id &&
                              forall j :: 0 <= j < k ==> Some(touches[j].id) != id by {
        if rest.Some? {
          var k :| 0 <= k < |touches[1..]| && touches[1..][k] == rest.value &&
                   Some(touches[1..][k].id) == id &&
                   forall j :: 0 <= j < k ==> Some(touches[1..][j].id) != id;
          assert forall j :: 0 <= j < k + 1 ==> Some(touches[j].id) != id by {
            forall j | 0 <= j < k + 1 ensures Some(touches[j].id) != id {
              if j > 0 { assert touches[j] == touches[1..][j - 1]; }
            }
          }
        }
      }
      assert rest.None? ==> forall k :: 0 <= k < |touches| ==> Some(touches[k].id) != id by {
        if rest.None? {
          forall k | 0 <= k < |touches| ensures Some(touches[k].id) != id {
            if k > 0 { assert touches[k] == touches[1..][k - 1]; }
          }
        }
      }
      rest
  }

  /** The loop that finds the first touch of `touches` with identifier `id` (`for ... if
      (ct.identifier === id) { t = ct; break; }`). */
  method FindTouch(touches: seq<TouchPoint>, id: Option<int>) returns (t: Option<TouchPoint>)
    ensures t == FirstWith(touches, id)
    ensures t.None? <==> forall k :: 0 <= k < |touches| ==> Some(touches[k].id) != id
    ensures t.Some? ==> exists k :: 0 <= k < |touches| && touches[k] == t.value &&
                          Some(touches[k].id) == id &&
                          forall j :: 0 <= j < k ==> Some(touches[j].id) != id
  {
    for k := 0 to |touches|
      invariant forall j :: 0 <= j < k ==> Some(touches[j].id) != id
      invariant FirstWith(touches[k..], id) == FirstWith(touches, id)
    {
      assert touches[k..][1..] == touches[k + 1..];
      if Some(touches[k].id) == id {
        return Some(touches[k]);
      }
    }
    assert touches[|touches|..] == [];
    return None;
  }

  /** A look tracker: `{active, ox, oy, id}`. */
  datatype Tracker = Tracker(active: bool, ox: real, oy: real, id: Option<int>)

  const Idle := Tracker(false, 0.0, 0.0, None)

  /** `isRightHalf(x)`: beyond the middle of a window `innerWidth` wide (`|| 0`: a
      missing width is 0). */
  predicate RightHalf(x: real, innerWidth: real) {
    x > innerWidth / 2.0
  }

  class Controls {
    var startL: Option<Vec>
    var leftId: Option<int>
    var r: Tracker
    var rPtr: Tracker
    /** The game state the handlers write. */
    var moveVec: Vec
    var turnStickX: real
    var turnStickY: real

    /** A tracker holds an identifier exactly while it is active, the pad has one exactly
        while a drag is under way, the sticks are full-range and rest at zero while nothing
        holds them, and so does the move vector. */
    predicate Valid()
      reads this
    {
      (r.active <==> r.id.Some?) && (rPtr.active <==> rPtr.id.Some?) &&
      (startL.Some? <==> leftId.Some?) &&
      -1.0 <= turnStickX <= 1.0 && -1.0 <= turnStickY <= 1.0 &&
      (!r.active && !rPtr.active ==> turnStickX == 0.0 && turnStickY == 0.0) &&
      (startL.None? ==> moveVec == Vec(0.0, 0.0))
    }

    constructor ()
      ensures Valid()
      ensures startL.None? && leftId.None? && r == Idle && rPtr == Idle
      ensures moveVec == Vec(0.0, 0.0) && turnStickX == 0.0 && turnStickY == 0.0
    {
      startL, leftId, r, rPtr := None, None, Idle, Idle;
      moveVec, turnStickX, turnStickY := Vec(0.0, 0.0), 0.0, 0.0;
    }

    /* -------------------------------------------------------------------------------- */
    /* The movement pad                                                                   */

    /** `onStartL` and `onPointerDownL`: a pad drag starts at (x, y), tracking `id`. */
    method StartL(id: int, x: real, y: real)
      requires Valid()
      modifies this
      ensures Valid()
      ensures startL == Some(Vec(x, y)) && leftId == Some(id)
      ensures r == old(r) && rPtr == old(rPtr) && moveVec == old(moveVec)
      ensures turnStickX == old(turnStickX) && turnStickY == old(turnStickY)
    {
      startL, leftId := Some(Vec(x, y)), Some(id);
    }

    /** The pad's move step once the tracked touch or pointer is at (x, y). */
    method MoveL(m: Trig, dir: real, x: real, y: real)
      requires Valid() && startL.Some?
      modifies this
      ensures Valid()
      ensures moveVec == MoveVector(m, dir, x - old(startL).value.x, y - old(startL).value.y)
      ensures startL == old(startL) && leftId == old(leftId) && r == old(r) && rPtr == old(rPtr)
      ensures turnStickX == old(turnStickX) && turnStickY == old(turnStickY)
    {
      moveVec := MoveVector(m, dir, x - startL.value.x, y - startL.value.y);
    }

    /** `onMoveL`: only a drag under way, and only its own touch, moves the player. */
    method OnMoveL(m: Trig, dir: real, touches: seq<TouchPoint>)
      requires Valid()
      modifies this
      ensures Valid()
      ensures startL == old(startL) && leftId == old(leftId) && r == old(r) && rPtr == old(rPtr)
      ensures turnStickX == old(turnStickX) && turnStickY == old(turnStickY)
      ensures (old(startL).None? || forall k :: 0 <= k < |touches| ==> Some(touches[k].id) != leftId)
              ==> moveVec == old(moveVec)
      ensures moveVec == old(moveVec) ||
              exists k :: 0 <= k < |touches| && Some(touches[k].id) == leftId &&
                moveVec == MoveVector(m, dir, touches[k].x - startL.value.x, touches[k].y - startL.value.y)
      ensures old(startL).Some? && FirstWith(touches, leftId).Some? ==>
                moveVec == MoveVector(m, dir, FirstWith(touches, leftId).value.x - startL.value.x,
                                      FirstWith(touches, leftId).value.y - startL.value.y)
    {
      if startL.None? {
        return;
      }
      var t := FindTouch(touches, leftId);
      if t.None? {
        return;
      }
      MoveL(m, dir, t.value.x, t.value.y);
    }

    /** `onPointerMoveL`: the same for the tracked pointer. */
    method OnPointerMoveL(m: Trig, dir: real, pointerId: int, x: real, y: real)
      requires Valid()
      modifies this
      ensures Valid()
      ensures startL == old(startL) && leftId == old(leftId) && r == old(r) && rPtr == old(rPtr)
      ensures turnStickX == old(turnStickX) && turnStickY == old(turnStickY)
      ensures old(startL).Some? && leftId == Some(pointerId) ==>
                moveVec == MoveVector(m, dir, x - startL.value.x, y - startL.value.y)
      ensures !(old(startL).Some? && leftId == Some(pointerId)) ==> moveVec == old(moveVec)
    {
      if startL.None? || leftId != Some(pointerId) {
        return;
      }
      MoveL(m, dir, x, y);
    }

    /** The end of the tracked pad gesture: stop walking and forget the drag. */
    method EndL()
      requires Valid()
      modifies this
      ensures Valid()
      ensures startL.None? && leftId.None? && moveVec == Vec(0.0, 0.0)
      ensures r == old(r) && rPtr == old(rPtr)
      ensures turnStickX == old(turnStickX) && turnStickY == old(turnStickY)
    {
      startL, leftId := None, None;
      moveVec := Vec(0.0, 0.0);
    }

    /** `onEndL`: only the end of the tracked touch ends the drag. */
    method OnEndL(touches: seq<TouchPoint>)
      requires Valid()
      modifies this
      ensures Valid()
      ensures r == old(r) && rPtr == old(rPtr)
      ensures turnStickX == old(turnStickX) && turnStickY == old(turnStickY)
      ensures (forall k :: 0 <= k < |touches| ==> Some(touches[k].id) != old(leftId)) ==>
                startL == old(startL) && leftId == old(leftId) && moveVec == old(moveVec)
      ensures (exists k :: 0 <= k < |touches| && Some(touches[k].id) == old(leftId)) ==>
                startL.None? && leftId.None? && moveVec == Vec(0.0, 0.0)
    {
      var t := FindTouch(touches, leftId);
      if t.None? {
        return;
      }
      EndL();
    }

    /** `onPointerUpL`: only the tracked pointer ends the drag. */
    method OnPointerUpL(pointerId: int)
      requires Valid()
      modifies this
      ensures Valid()
      ensures r == old(r) && rPtr == old(rPtr)
      ensures turnStickX == old(turnStickX) && turnStickY == old(turnStickY)
      ensures old(leftId) != Some(pointerId) ==>
                startL == old(startL) && leftId == old(leftId) && moveVec == old(moveVec)
      ensures old(leftId) == Some(pointerId) ==>
                startL.None? && leftId.None? && moveVec == Vec(0.0, 0.0)
    {
      if leftId != Some(pointerId) {
        return;
      }
      EndL();
    }

    /* -------------------------------------------------------------------------------- */
    /* The look stick                                                                     */

    /** The look stick deflected by the offset (x - ox, y - oy), vertical axis inverted. */
    method Look(ox: real, oy: real, x: real, y: real)
      requires Valid() && (r.active || rPtr.active)
      modifies this
      ensures Valid()
      ensures turnStickX == LookAxis(x - ox) && turnStickY == -LookAxis(y - oy)
      ensures startL == old(startL) && leftId == old(leftId) && moveVec == old(moveVec)
      ensures r == old(r) && rPtr == old(rPtr)
    {
      var n := TsNorm(x - ox, y - oy);
      turnStickX, turnStickY := n.x, -n.y;
    }

    /** `onStartR` and the capture `touchstart` on the right half: hold the look stick by
        this touch. */
    method StartR(t: TouchPoint)
      requires Valid()
      modifies this
      ensures Valid()
      ensures r == Tracker(true, t.x, t.y, Some(t.id))
      ensures startL == old(startL) && leftId == old(leftId) && moveVec == old(moveVec)
      ensures rPtr == old(rPtr) && turnStickX == old(turnStickX) && turnStickY == old(turnStickY)
    {
      r := Tracker(true, t.x, t.y, Some(t.id));
    }

    /** `onMoveR`: only a held stick, and only its own touch, turns the view. */
    method OnMoveR(touches: seq<TouchPoint>)
      requires Valid()
      modifies this
      ensures Valid()
      ensures startL == old(startL) && leftId == old(leftId) && moveVec == old(moveVec)
      ensures r == old(r) && rPtr == old(rPtr)
      ensures (!r.active || forall k :: 0 <= k < |touches| ==> Some(touches[k].id) != r.id) ==>
                turnStickX == old(turnStickX) && turnStickY == old(turnStickY)
      ensures (turnStickX == old(turnStickX) && turnStickY == old(turnStickY)) ||
              exists k :: 0 <= k < |touches| && Some(touches[k].id) == r.id &&
                turnStickX == LookAxis(touches[k].x - r.ox) && turnStickY == -LookAxis(touches[k].y - r.oy)
      ensures r.active && FirstWith(touches, r.id).Some? ==>
                turnStickX == LookAxis(FirstWith(touches, r.id).value.x - r.ox) &&
                turnStickY == -LookAxis(FirstWith(touches, r.id).value.y - r.oy)
    {
      if !r.active {
        return;
      }
      var t := FindTouch(touches, r.id);
      if t.None? {
        return;
      }
      Look(r.ox, r.oy, t.value.x, t.value.y);
    }

    /** The capture `touchmove`: the same without the `active` test, which the tracked
        identifier already implies. */
    method CaptureTouchMove(touches: seq<TouchPoint>)
      requires Valid()
      modifies this
      ensures Valid()
      ensures startL == old(startL) && leftId == old(leftId) && moveVec == old(moveVec)
      ensures r == old(r) && rPtr == old(rPtr)
      ensures (forall k :: 0 <= k < |touches| ==> Some(touches[k].id) != r.id) ==>
                turnStickX == old(turnStickX) && turnStickY == old(turnStickY)
      ensures (turnStickX == old(turnStickX) && turnStickY == old(turnStickY)) ||
              exists k :: 0 <= k < |touches| && Some(touches[k].id) == r.id &&
                turnStickX == LookAxis(touches[k].x - r.ox) && turnStickY == -LookAxis(touches[k].y - r.oy)
      ensures FirstWith(touches, r.id).Some? ==>
                turnStickX == LookAxis(FirstWith(touches, r.id).value.x - r.ox) &&
                turnStickY == -LookAxis(FirstWith(touches, r.id).value.y - r.oy)
    {
      var t := FindTouch(touches, r.id);
      if t.None? {
        return;
      }
      Look(r.ox, r.oy, t.value.x, t.value.y);
    }

    /** The release of the tracked look touch: centre the stick and let it go. */
    method EndR()
      requires Valid()
      modifies this
      ensures Valid()
      ensures r == old(r).(active := false, id := None) && turnStickX == 0.0 && turnStickY == 0.0
      ensures startL == old(startL) && leftId == old(leftId) && moveVec == old(moveVec)
      ensures rPtr == old(rPtr)
    {
      turnStickX, turnStickY := 0.0, 0.0;
      r := r.(active := false, id := None);
    }

    /** `onEndR` (after its `active` test) and the capture `touchend`: only the end of the
        tracked touch releases the stick. */
    method OnEndR(touches: seq<TouchPoint>)
      requires Valid()
      modifies this
      ensures Valid()
      ensures startL == old(startL) && leftId == old(leftId) && moveVec == old(moveVec)
      ensures rPtr == old(rPtr)
      ensures (forall k :: 0 <= k < |touches| ==> Some(touches[k].id) != old(r).id) ==>
                r == old(r) && turnStickX == old(turnStickX) && turnStickY == old(turnStickY)
      ensures (exists k :: 0 <= k < |touches| && Some(touches[k].id) == old(r).id) ==>
                r == old(r).(active := false, id := None) && turnStickX == 0.0 && turnStickY == 0.0
    {
      if !r.active {
        return;
      }
      var t := FindTouch(touches, r.id);
      if t.None? {
        return;
      }
      EndR();
    }

    /** The capture `touchstart`: a first touch on the right half of the window takes the
        look stick; an event without touches, or one on the left, changes nothing. */
    method CaptureTouchStart(touches: seq<TouchPoint>, innerWidth: real)
      requires Valid()
      modifies this
      ensures Valid()
      ensures |touches| > 0 && RightHalf(touches[0].x, innerWidth) ==>
                r == Tracker(true, touches[0].x, touches[0].y, Some(touches[0].id))
      ensures !(|touches| > 0 && RightHalf(touches[0].x, innerWidth)) ==> r == old(r)
      ensures startL == old(startL) && leftId == old(leftId) && moveVec == old(moveVec)
      ensures rPtr == old(rPtr) && turnStickX == old(turnStickX) && turnStickY == old(turnStickY)
    {
      if |touches| == 0 {
        return;
      }
      if RightHalf(touches[0].x, innerWidth) {
        StartR(touches[0]);
      }
    }

    /** `onPointerDownR`, and the capture `pointerdown` once it has found the right half:
        hold the look stick by this pointer. */
    method PointerDownR(pointerId: int, x: real, y: real)
      requires Valid()
      modifies this
      ensures Valid()
      ensures rPtr == Tracker(true, x, y, Some(pointerId))
      ensures startL == old(startL) && leftId == old(leftId) && moveVec == old(moveVec)
      ensures r == old(r) && turnStickX == old(turnStickX) && turnStickY == old(turnStickY)
    {
      rPtr := Tracker(true, x, y, Some(pointerId));
    }

    /** The capture `pointerdown`: a pointer pressed on the right half of the window takes
        the look stick; one on the left changes nothing. */
    method CapturePointerDown(pointerId: int, x: real, y: real, innerWidth: real)
      requires Valid()
      modifies this
      ensures Valid()
      ensures RightHalf(x, innerWidth) ==> rPtr == Tracker(true, x, y, Some(pointerId))
      ensures !RightHalf(x, innerWidth) ==> rPtr == old(rPtr)
      ensures startL == old(startL) && leftId == old(leftId) && moveVec == old(moveVec)
      ensures r == old(r) && turnStickX == old(turnStickX) && turnStickY == old(turnStickY)
    {
      if RightHalf(x, innerWidth) {
        PointerDownR(pointerId, x, y);
      }
    }

    /** `onPointerMoveR` and the capture `pointermove`: only the held stick's own pointer
        turns the view. */
    method OnPointerMoveR(pointerId: int, x: real, y: real)
      requires Valid()
      modifies this
      ensures Valid()
      ensures startL == old(startL) && leftId == old(leftId) && moveVec == old(moveVec)
      ensures r == old(r) && rPtr == old(rPtr)
      ensures rPtr.active && rPtr.id == Some(pointerId) ==>
                turnStickX == LookAxis(x - rPtr.ox) && turnStickY == -LookAxis(y - rPtr.oy)
      ensures !(rPtr.active && rPtr.id == Some(pointerId)) ==>
                turnStickX == old(turnStickX) && turnStickY == old(turnStickY)
    {
      if !rPtr.active || rPtr.id != Some(pointerId) {
        return;
      }
      Look(rPtr.ox, rPtr.oy, x, y);
    }

    /** `onPointerUpR` and the capture `pointerup`: only the held stick's own pointer
        releases it, centring the stick. */
    method OnPointerUpR(pointerId: int)
      requires Valid()
      modifies this
      ensures Valid()
      ensures startL == old(startL) && leftId == old(leftId) && moveVec == old(moveVec)
      ensures r == old(r)
      ensures old(rPtr).active && old(rPtr).id == Some(pointerId) ==>
                rPtr == old(rPtr).(active := false, id := None) && turnStickX == 0.0 && turnStickY == 0.0
      ensures !(old(rPtr).active && old(rPtr).id == Some(pointerId)) ==>
                rPtr == old(rPtr) && turnStickX == old(turnStickX) && turnStickY == old(turnStickY)
    {
      if !rPtr.active || rPtr.id != Some(pointerId) {
        return;
      }
      turnStickX, turnStickY := 0.0, 0.0;
      rPtr := rPtr.(active := false, id := None);
    }
  }
}
