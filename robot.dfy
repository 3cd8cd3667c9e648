/**
  The player's robot (src/app/components/Robot.tsx) as an input state
  machine: key presses set the jump and movement flags, an effect turns the
  movement flags into at most one repeating interval, each tick of that
  interval scrolls the background by 5 pixels, and a timeout ends a jump.

  Timers are not run: a firing of the movement interval is the method
  `Tick` and the firing of the 500 ms jump timeout is `JumpTimeout`. The
  background position is the parent's state, reached through the
  `setBackgroundPosition` prop, and is a field here.
 */
module RobotInput {

  datatype Option<T> = None | Some(value: T)

  const MoveSpeed: int := 10
  const ForwardKeyName: string := "ArrowRight"
  const BackwardKeyName: string := "ArrowLeft"

  predicate IsJumpKey(key: string)
  {
    key == " "
  }

  predicate IsForwardKey(key: string)
  {
    key == "ArrowRight" || key == "d"
  }

  predicate IsBackwardKey(key: string)
  {
    key == "ArrowLeft" || key == "a"
  }

  /**
    The movement effect's choice: `Some(forwards)` for the interval it
    starts, `None` when it stops movement. Forward wins when both flags are set.
   */
  function SelectDirection(isMovingForward: bool, isMovingBackward: bool): (r: Option<bool>)
    ensures r == None <==> !isMovingForward && !isMovingBackward
    ensures isMovingForward ==> r == Some(true)
    ensures !isMovingForward && isMovingBackward ==> r == Some(false)
  {
    if isMovingForward then Some(true)
    else if isMovingBackward then Some(false)
    else None
  }

  /** The position update of one interval tick. */
  function MoveStep(position: int, forwards: bool): (r: int)
    ensures forwards ==> r == position - 5
    ensures !forwards ==> r == position + 5
  {
    position - (if forwards then MoveSpeed / 2 else -(MoveSpeed / 2))
  }

  /** The position after `n` ticks in one direction. */
  function Ticks(position: int, forwards: bool, n: nat): int
  {
    if n == 0 then position else MoveStep(Ticks(position, forwards, n - 1), forwards)
  }

  /** Every tick moves the background by exactly 5 pixels: left going forward, right going backward. */
  lemma {:induction false} TicksDisplacement(position: int, forwards: bool, n: nat)
    ensures Ticks(position, forwards, n) == position + (if forwards then -5 else 5) * n
  {
    if n > 0 {
      TicksDisplacement(position, forwards, n - 1);
    }
  }

  /** Going back as many ticks as one went forward returns to the starting position. */
  lemma BackAndForth(position: int, n: nat)
    ensures Ticks(Ticks(position, true, n), false, n) == position
  {
    TicksDisplacement(position, true, n);
    TicksDisplacement(Ticks(position, true, n), false, n);
  }

  class Robot {
    /** True until the first jump; movement keys are ignored meanwhile. */
    var introduction: bool
    var isMovingForward: bool
    var isMovingBackward: bool
    /** Whether the wheels turn. */
    var isRotating: bool
    var jump: bool
    /** The ref that mirrors `jump` without waiting for a re-render. */
    var jumpRef: bool
    var lastMovement: Option<string>
    /** The running movement interval, given by the direction its callback was created with. */
    var movementInterval: Option<bool>
    /** The parent's background position. */
    var backgroundPosition: int
    /** The flag values the movement effect last ran with (its dependency list). */
    var effectForward: bool
    var effectBackward: bool

    ghost predicate Valid()
      reads this
    {
      && jump == jumpRef
      && movementInterval == SelectDirection(effectForward, effectBackward)
      && (isRotating ==> movementInterval.Some?)
      && (introduction ==> !isMovingForward && !isMovingBackward && lastMovement == None)
    }

    /** Mounting; the movement effect's first run finds both flags false and stops nothing. */
    constructor (backgroundPosition: int)
      ensures Valid()
      ensures introduction && !jump && !isMovingForward && !isMovingBackward && !isRotating
      ensures lastMovement == None && movementInterval == None
      ensures this.backgroundPosition == backgroundPosition
    {
      introduction := true;
      isMovingForward, isMovingBackward, isRotating := false, false, false;
      jump, jumpRef := false, false;
      lastMovement := None;
      movementInterval := None;
      this.backgroundPosition := backgroundPosition;
      effectForward, effectBackward := false, false;
    }

    /** `startMovement`: creates the interval only when none is running. */
    method StartMovement(forwards: bool)
      modifies this`movementInterval
      ensures movementInterval == if old(movementInterval) == None then Some(forwards) else old(movementInterval)
    {
      if movementInterval == None {
        movementInterval := Some(forwards);
      }
    }

    /** `stopMovement`: clears the interval, and the wheels stop if one was running. */
    method StopMovement()
      modifies this`movementInterval, this`isRotating
      ensures movementInterval == None
      ensures isRotating == (old(isRotating) && old(movementInterval) == None)
    {
      if movementInterval != None {
        isRotating := false;
        movementInterval := None;
      }
    }

    /** `handleKeyDown`. */
    method HandleKeyDown(key: string)
      requires Valid()
      modifies this`introduction, this`jump, this`jumpRef, this`isMovingForward, this`isMovingBackward, this`lastMovement
      ensures Valid()
      ensures var jumps := IsJumpKey(key) && !old(jumpRef);
        && (jumps ==> jump && jumpRef)
        && (!jumps ==> jump == old(jump) && jumpRef == old(jumpRef))
        && introduction == (old(introduction) && !jumps)
      ensures isMovingForward == (old(isMovingForward) || (IsForwardKey(key) && !old(introduction)))
      ensures isMovingBackward == (old(isMovingBackward) || (IsBackwardKey(key) && !old(introduction)))
      ensures lastMovement ==
        if IsForwardKey(key) && !old(introduction) then Some(ForwardKeyName)
        else if IsBackwardKey(key) && !old(introduction) then Some(BackwardKeyName)
        else old(lastMovement)
    {
      // the listener sees `introduction` as it was when it was registered
      var introducing := introduction;
      if IsJumpKey(key) && introducing && !jumpRef {
        jump := true;
        jumpRef := true;
        introduction := false;
      } else if IsJumpKey(key) && !jumpRef {
        jump := true;
        jumpRef := true;
      }
      if IsForwardKey(key) && !introducing {
        isMovingForward := true;
        lastMovement := Some(ForwardKeyName);
      }
      if IsBackwardKey(key) && !introducing {
        isMovingBackward := true;
        lastMovement := Some(BackwardKeyName);
      }
    }

    /** `handleKeyUp`: clears only the flag of the released direction. */
    method HandleKeyUp(key: string)
      requires Valid()
      modifies this`isMovingForward, this`isMovingBackward
      ensures Valid()
      ensures isMovingForward == (old(isMovingForward) && !IsForwardKey(key))
      ensures isMovingBackward == (old(isMovingBackward) && !IsBackwardKey(key))
    {
      if IsForwardKey(key) {
        isMovingForward := false;
      } else if IsBackwardKey(key) {
        isMovingBackward := false;
      }
    }

    /**
      The movement effect. It re-runs only when a movement flag changed since
      its last run; its clean-up stops the old interval first, so afterwards
      the interval runs in the selected direction, or none runs.
     */
    method MovementEffect()
      requires Valid()
      modifies this`movementInterval, this`isRotating, this`effectForward, this`effectBackward
      ensures Valid()
      ensures movementInterval == SelectDirection(isMovingForward, isMovingBackward)
      ensures effectForward == isMovingForward && effectBackward == isMovingBackward
      ensures var changed := old(effectForward) != isMovingForward || old(effectBackward) != isMovingBackward;
        && (changed ==> !isRotating)
        && (!changed ==> isRotating == old(isRotating) && movementInterval == old(movementInterval))
    {
      if effectForward != isMovingForward || effectBackward != isMovingBackward {
        StopMovement();
        if isMovingForward {
          StartMovement(true);
        } else if isMovingBackward {
          StartMovement(false);
        } else {
          StopMovement();
        }
        effectForward, effectBackward := isMovingForward, isMovingBackward;
      }
    }

    /** One firing of the movement interval; without a running interval nothing fires. */
    method Tick()
      requires Valid()
      modifies this`isRotating, this`backgroundPosition
      ensures Valid()
      ensures match movementInterval
        case None => backgroundPosition == old(backgroundPosition) && isRotating == old(isRotating)
        case Some(forwards) => backgroundPosition == MoveStep(old(backgroundPosition), forwards) && isRotating
    {
      match movementInterval
      case None =>
      case Some(forwards) =>
        isRotating := true;
        backgroundPosition := MoveStep(backgroundPosition, forwards);
    }

    /** The jump timeout: the jump ends and nothing else changes. */
    method JumpTimeout()
      requires Valid()
      modifies this`jump, this`jumpRef
      ensures Valid()
      ensures !jump && !jumpRef
    {
      jump := false;
      jumpRef := false;
    }
  }

  /** Holding the forward key from the start: after the first jump, `n` ticks scroll the background to `-5 * n`. */
  method HoldForward(n: nat) returns (position: int)
    ensures position == -5 * n
  {
    var robot := new Robot(0);
    robot.HandleKeyDown(" ");
    robot.JumpTimeout();
    robot.HandleKeyDown("ArrowRight");
    robot.MovementEffect();
    var i := 0;
    while i < n
      invariant 0 <= i <= n
      invariant robot.Valid()
      invariant robot.movementInterval == Some(true)
      invariant robot.backgroundPosition == Ticks(0, true, i)
    {
      robot.Tick();
      i := i + 1;
    }
    TicksDisplacement(0, true, n);
    position := robot.backgroundPosition;
  }
}
