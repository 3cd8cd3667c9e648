/**
  A single coin (src/app/components/Coin.tsx): on every animation frame it
  tests its hitbox against the robot's, and on the first hit it latches
  `collected`, reports itself once through `onCollect`, and stops both
  polling and rendering.

  Coordinates are JavaScript numbers, modelled as `real`. Whether the robot
  is jumping is an input: the store the component reads it from does not
  define it.
 */
module CoinCollision {

  const CoinWidth: real := 50.0
  /** About 10 pixels of transparent margin under the coin's picture. */
  const WhiteSpaceCoin: real := 10.0
  const RobotYCenter: real := 70.0 / 2.0
  /** The robot's fixed screen x. */
  const RobotX: real := 100.0
  const RobotWidth: real := 75.0

  /** How far the robot's hitbox is raised while it jumps. */
  function JumpOffset(isJumping: bool): (r: real)
    ensures isJumping ==> r == 55.0
    ensures !isJumping ==> r == 0.0
  {
    if isJumping then 20.0 + RobotYCenter else 0.0
  }

  function Abs(v: real): real
  {
    if v < 0.0 then -v else v
  }

  /** The horizontal test: the centres are closer than half the summed widths. */
  function OverlapX(x: real, backgroundPosition: real): (r: bool)
    ensures r <==> 50.0 < x + backgroundPosition < 175.0
  {
    var coinScreenX := x + backgroundPosition;
    var robotCenterX := RobotX + RobotWidth / 2.0;
    var coinCenterX := coinScreenX + CoinWidth / 2.0;
    Abs(robotCenterX - coinCenterX) < (RobotWidth + CoinWidth) / 2.0
  }

  /** The vertical test: the robot's raised top is at or above the coin's bottom. */
  function OverlapY(y: real, robotY: real, isJumping: bool): (r: bool)
    ensures r <==> robotY - (if isJumping then 55.0 else 0.0) <= y - 10.0
  {
    robotY - JumpOffset(isJumping) <= y - WhiteSpaceCoin
  }

  /** One `checkCollision`: a hit needs both overlaps. */
  function Hit(x: real, y: real, backgroundPosition: real, robotY: real, isJumping: bool): (r: bool)
    ensures r <==> && 50.0 < x + backgroundPosition < 175.0
                   && robotY - (if isJumping then 55.0 else 0.0) <= y - 10.0
  {
    OverlapX(x, backgroundPosition) && OverlapY(y, robotY, isJumping)
  }

  /** Jumping never turns a hit into a miss. */
  lemma JumpingKeepsHit(x: real, y: real, backgroundPosition: real, robotY: real)
    ensures Hit(x, y, backgroundPosition, robotY, false) ==> Hit(x, y, backgroundPosition, robotY, true)
  {
  }

  /**
    The coin component's state: the `collected` latch, whether an animation
    frame is pending for `checkCollision`, and how many times `onCollect`
    has been called.
   */
  class CoinPoller {
    var collected: bool
    var framePending: bool
    var collectCalls: nat

    /** The coin has reported itself at most once, exactly when it is collected, and never polls once collected. */
    ghost predicate Valid()
      reads this
    {
      && collectCalls <= 1
      && (collected <==> collectCalls == 1)
      && (framePending ==> !collected)
    }

    /** Whether the component renders its picture. */
    function Rendered(): (r: bool)
      reads this
      requires Valid()
      ensures r <==> collectCalls == 0
    {
      !collected
    }

    constructor ()
      ensures Valid() && !collected && !framePending && collectCalls == 0
    {
      collected, framePending, collectCalls := false, false, 0;
    }

    /**
      The polling effect, re-run whenever `collected`, the coin's position,
      the background position or the jump state change: its clean-up cancels
      the pending frame, and it requests a new one only while not collected.
     */
    method PollingEffect()
      requires Valid()
      modifies this`framePending
      ensures Valid()
      ensures framePending == !collected
    {
      framePending := false;
      if !collected {
        framePending := true;
      }
    }

    /** A firing of the requested animation frame; nothing happens when none is pending. */
    method Frame(x: real, y: real, backgroundPosition: real, robotY: real, isJumping: bool) returns (onCollect: bool)
      requires Valid()
      modifies this
      ensures Valid()
      ensures onCollect <==> old(framePending) && Hit(x, y, backgroundPosition, robotY, isJumping)
      ensures onCollect ==> old(collectCalls) == 0 && collected && !framePending
      ensures !onCollect ==> collected == old(collected) && framePending == old(framePending)
      ensures collectCalls == old(collectCalls) + (if onCollect then 1 else 0)
    {
      onCollect := false;
      if framePending {
        var coinScreenX := x + backgroundPosition;
        var robotYPosition := robotY - JumpOffset(isJumping);
        var overlapX := Abs(RobotX + RobotWidth / 2.0 - (coinScreenX + CoinWidth / 2.0)) < (RobotWidth + CoinWidth) / 2.0;
        var overlapY := robotYPosition <= y - WhiteSpaceCoin;
        if overlapX && overlapY {
          collected := true;
          collectCalls := collectCalls + 1;
          framePending := false;
          onCollect := true;
        }
      }
    }
  }

  /** A coin held inside the hitbox for five frames reports itself exactly once. */
  method FiveFramesInsideHitbox(x: real, y: real, backgroundPosition: real, robotY: real, isJumping: bool)
    returns (calls: nat)
    requires Hit(x, y, backgroundPosition, robotY, isJumping)
    ensures calls == 1
  {
    var coin := new CoinPoller();
    coin.PollingEffect();
    calls := 0;
    var frame := 0;
    while frame < 5
      invariant 0 <= frame <= 5
      invariant coin.Valid()
      invariant calls == coin.collectCalls
      invariant frame > 0 ==> coin.collected
      invariant frame == 0 ==> coin.framePending
    {
      var fired := coin.Frame(x, y, backgroundPosition, robotY, isJumping);
      if fired {
        calls := calls + 1;
      }
      coin.PollingEffect();
      frame := frame + 1;
    }
  }
}
