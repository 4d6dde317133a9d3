/** The touch handlers of src/controls/touch.js: a movement pad on the left half, which
    remembers where the drag started, and a look stick on the right half. Each handler reads
    only the first changed touch of its event, which is its parameter here; the game state it
    writes (`state.moveVec`, `state.turnStickX/Y`) is held in fields of the same object. */
module Touch {
  import opened Maths
  import opened Wrappers
  import opened Entities
  import opened Stick

  class TouchPad {
    /** `startL`: where the current pad drag began, if one is under way. */
    var startL: Option<Vec>
    /** `R`: whether the look stick is held, and where the hold began. */
    var rActive: bool
    var rOx: real
    var rOy: real
    /** The game state the handlers write. */
    var moveVec: Vec
    var turnStickX: real
    var turnStickY: real

    /** The sticks are full-range, and rest at zero whenever nothing holds them. */
    predicate Valid()
      reads this
    {
      -1.0 <= turnStickX <= 1.0 && -1.0 <= turnStickY <= 1.0 &&
      (!rActive ==> turnStickX == 0.0 && turnStickY == 0.0) &&
      (startL.None? ==> moveVec == Vec(0.0, 0.0))
    }

    /** `attachTouchControls`, on a state whose sticks are at rest. */
    constructor ()
      ensures Valid()
      ensures startL.None? && !rActive && rOx == 0.0 && rOy == 0.0
      ensures moveVec == Vec(0.0, 0.0) && turnStickX == 0.0 && turnStickY == 0.0
    {
      startL, rActive, rOx, rOy := None, false, 0.0, 0.0;
      moveVec, turnStickX, turnStickY := Vec(0.0, 0.0), 0.0, 0.0;
    }

    /** `onStartL`: a pad drag begins at the touch. */
    method OnStartL(t: TouchPoint)
      requires Valid()
      modifies this
      ensures Valid()
      ensures startL == Some(Vec(t.x, t.y))
      ensures rActive == old(rActive) && rOx == old(rOx) && rOy == old(rOy)
      ensures moveVec == old(moveVec)
      ensures turnStickX == old(turnStickX) && turnStickY == old(turnStickY)
    {
      startL := Some(Vec(t.x, t.y));
    }

    /** `onMoveL`: without a drag nothing changes; otherwise the move vector follows the
        offset from the start for a player facing `dir`. */
    method OnMoveL(m: Trig, dir: real, t: TouchPoint)
      requires Valid()
      modifies this
      ensures Valid()
      ensures old(startL).None? ==> moveVec == old(moveVec)
      ensures old(startL).Some? ==>
                moveVec == MoveVector(m, dir, t.x - old(startL).value.x, t.y - old(startL).value.y)
      ensures startL == old(startL) && rActive == old(rActive) && rOx == old(rOx) && rOy == old(rOy)
      ensures turnStickX == old(turnStickX) && turnStickY == old(turnStickY)
    {
      if startL.None? {
        return;
      }
      moveVec := MoveVector(m, dir, t.x - startL.value.x, t.y - startL.value.y);
    }

    /** `onEndL`: any pad touch ending stops the walk, tracked or not. */
    method OnEndL()
      requires Valid()
      modifies this
      ensures Valid()
      ensures startL.None? && moveVec == Vec(0.0, 0.0)
      ensures rActive == old(rActive) && rOx == old(rOx) && rOy == old(rOy)
      ensures turnStickX == old(turnStickX) && turnStickY == old(turnStickY)
    {
      startL := None;
      moveVec := Vec(0.0, 0.0);
    }

    /** `onStartR`: the look stick is held from the touch. */
    method OnStartR(t: TouchPoint)
      requires Valid()
      modifies this
      ensures Valid()
      ensures rActive && rOx == t.x && rOy == t.y
      ensures startL == old(startL) && moveVec == old(moveVec)
      ensures turnStickX == old(turnStickX) && turnStickY == old(turnStickY)
    {
      rActive, rOx, rOy := true, t.x, t.y;
    }

    /** `onMoveR`: while held, the stick takes the remapped offset from the hold, its
        vertical axis inverted; while not held nothing changes. */
    method OnMoveR(t: TouchPoint)
      requires Valid()
      modifies this
      ensures Valid()
      ensures old(rActive) ==>
                turnStickX == LookAxis(t.x - rOx) && turnStickY == -LookAxis(t.y - rOy)
      ensures !old(rActive) ==> turnStickX == old(turnStickX) && turnStickY == old(turnStickY)
      ensures rActive == old(rActive) && rOx == old(rOx) && rOy == old(rOy)
      ensures startL == old(startL) && moveVec == old(moveVec)
    {
      if !rActive {
        return;
      }
      var n := TsNorm(t.x - rOx, t.y - rOy);
      turnStickX, turnStickY := n.x, -n.y;
    }

    /** `onEndR`: releasing a held stick centres it; otherwise nothing changes. */
    method OnEndR()
      requires Valid()
      modifies this
      ensures Valid()
      ensures !rActive
      ensures turnStickX == 0.0 && turnStickY == 0.0
      ensures rOx == old(rOx) && rOy == old(rOy)
      ensures startL == old(startL) && moveVec == old(moveVec)
    {
      if !rActive {
        return;
      }
      turnStickX, turnStickY := 0.0, 0.0;
      rActive := false;
    }
  }
}
