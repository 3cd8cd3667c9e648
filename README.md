# Side-scroller game rules

A model of the game rules of a side-scrolling landing page. A robot drives
across a scrolling world and collects coins, a sun travels along an arc
that darkens or lightens an overlay, and a cloud and a cat animation cycle.
The model covers six components, one Dafny module each:

- `CoinField` (`coin_field.dfy`) covers the home page's coin pattern. The
  world is cut into 500-pixel segments. Each time the robot, not moving
  backwards, reaches a new segment further right, one coin is spawned just
  past the right edge, with heights cycling through 50, -20 and -10. Coins
  more than one and a half screens behind are culled, a collected coin is
  removed by id, and only coins near the screen are drawn. The pure
  functions `Spawn` and `Collect` act on a `Field` value. The class
  `CoinSpawner` holds the two refs and the coin list, and its methods are
  proved to update them as `Spawn` and `Collect` do. The invariant `Inv`
  says ids strictly increase along the list.
- `CoinCollision` (`coin_collision.dfy`) covers a single coin. Its hitbox
  test is pure arithmetic on fixed constants. The class `CoinPoller` holds
  the `collected` latch and the pending animation frame. It counts the
  calls of `onCollect` and proves there is at most one.
- `RobotInput` (`robot.dfy`) covers the robot's key handlers, the movement
  effect with its single interval, and the interval tick, which moves the
  background 5 pixels. It also covers the 500 ms jump timeout. Timer
  firings are the methods `Tick` and `JumpTimeout`.
- `Background` (`background.dfy`) covers the sun's looping x position
  (JavaScript `%`), its clamped parabolic height and the overlay opacity
  derived from that height, all over `real`. It also covers the cloud-wrap
  rule and the component state it overwrites.
- `SpriteSheet` (`sprite_sheet.dfy`) covers the cat's frame index cycling
  round a frame order, and the row/column of a frame number on the sheet.
- `AppSlice` (`app_slice.dfy`) covers the store's two movement flags and
  their setters, written as a reducer over a record.
- `JsMath` (`js_math.dfy`) defines the JavaScript operators whose meaning
  differs from Dafny's: truncating `%` and `Math.min`/`Math.max` clamping.

Integer widths do not arise. In `CoinField` and `RobotInput`, positions the
program only changes in whole pixels (`backgroundPosition`, coin
coordinates) are `int`. `CoinCollision` takes the same coordinates as
`real`, because its hitbox arithmetic halves widths (`75 / 2`); every
whole-pixel value is among them. The two modules are not joined here; a
`CoinField.Coin` would reach `Hit` or `CoinPoller.Frame` with its fields
converted by `as real`. Sun, opacity and
cloud quantities are `real`. `Math.floor(backgroundPosition / -500)` is
Dafny's `(-backgroundPosition) / 500`, which floors because the divisor is
positive.

## Model

| member | source | states |
|---|---|---|
| `CoinField.Segment` | src/app/page.tsx:64 | the segment reached is the floor of the distance travelled right over 500: `s*500 <= -bp < (s+1)*500` |
| `CoinField.Filter` | src/app/page.tsx:76 | `filter` keeps exactly the elements satisfying the predicate and never lengthens the list |
| `CoinField.FilterAppend` | src/app/page.tsx:76 | filtering distributes over concatenation, so the survivors keep their relative order |
| `CoinField.FilterKeepsIdsIncreasing` | src/app/page.tsx:76 | filtering a list whose ids strictly increase leaves ids strictly increasing |
| `CoinField.Cull` | src/app/page.tsx:76 | a spawn keeps exactly the coins with `x > -bp - 1.5*screenWidth` |
| `CoinField.RemoveCoin` | src/app/page.tsx:89-91 | collecting keeps exactly the coins whose id differs from the collected one |
| `CoinField.RemoveCoinKeepsOrder` | src/app/page.tsx:89-91 | collecting preserves the order of the remaining coins |
| `CoinField.Visible` | src/app/page.tsx:109 | a coin is rendered iff `-100 < coin.x + bp < screenWidth + 100` |
| `CoinField.Init` | src/app/page.tsx:53-58 | on mounting at position 0 the last generated segment is 0, the height index 0 and there are no coins |
| `CoinField.Spawns` | src/app/page.tsx:68 | the effect spawns iff not moving backwards and the robot has travelled at least `(lastGeneratedSegment + 1) * 500` pixels right |
| `CoinField.NewCoin` | src/app/page.tsx:72-82 | the new coin sits one screen width right of the left edge, at the palette entry `lastCoinIndex mod 3` above or below the robot, with the segment as id |
| `CoinField.SpawnedCoinHeight` | src/app/page.tsx:72-82 | on every spawn, whatever moves and collections came before, the appended coin takes palette entry `lastCoinIndex mod 3` and the index advances by one, so heights go round-robin over spawns |
| `CoinField.Spawn` | src/app/page.tsx:63-87 | a coin is spawned iff not moving backwards and the segment exceeds the last one; then the segment is recorded, the index advances by one and the culled list gets the new coin appended; otherwise nothing changes |
| `CoinField.InitInv` | src/app/page.tsx:53-58 | the initial field satisfies the id invariant |
| `CoinField.SpawnKeepsInv` | src/app/page.tsx:68-84 | a spawn keeps ids strictly increasing and bounded by the last segment, and the last segment never decreases |
| `CoinField.Collect` | src/app/page.tsx:89-91 | collecting changes only the coin list, removing exactly the coins with that id |
| `CoinField.CollectKeepsInv` | src/app/page.tsx:89-91 | collecting keeps ids strictly increasing |
| `CoinField.SpawnCadence` | src/app/page.tsx:63-87 | after n forward ticks of 5 px from 0, exactly n/100 coins were spawned, the ids are increasing, and each coin's height is `robotY + [50,-20,-10][(id-1) mod 3]` |
| `CoinField.SegmentOfTicks` | src/app/page.tsx:64 | at position `-5n` the segment is `n/100`, and one tick moves it up by at most one |
| `CoinField.FourCoinsBy2000` | src/app/page.tsx:51-87 | scrolling forward from 0 to -2000 spawns exactly four coins |
| `CoinField.CoinSpawner.constructor` | src/app/page.tsx:53-58 | the refs start from the mounting position with no coins |
| `CoinField.CoinSpawner.SpawnEffect` | src/app/page.tsx:63-87 | the effect updates both refs and the coin list exactly as `Spawn` says and keeps the id invariant |
| `CoinField.CoinSpawner.HandleCollectCoin` | src/app/page.tsx:89-91 | `handleCollectCoin` updates the list exactly as `Collect` says and keeps the id invariant |
| `CoinCollision.JumpOffset` | src/app/components/Coin.tsx:26-28 | the hitbox is raised by 55 while jumping and 0 otherwise |
| `CoinCollision.OverlapY` | src/app/components/Coin.tsx:42-47 | vertical overlap holds iff the robot's top, raised by 55 while jumping, is at or above the coin's bottom 10 pixels above its y |
| `CoinCollision.OverlapX` | src/app/components/Coin.tsx:19-46 | horizontal overlap holds iff the coin's screen x is strictly between 50 and 175 |
| `CoinCollision.Hit` | src/app/components/Coin.tsx:24-52 | a hit needs the horizontal overlap and `robotY - jumpOffset <= y - 10` |
| `CoinCollision.JumpingKeepsHit` | src/app/components/Coin.tsx:28-47 | if the check succeeds while grounded it also succeeds while jumping |
| `CoinCollision.CoinPoller.Rendered` | src/app/components/Coin.tsx:70 | the coin is drawn iff `onCollect` has not yet been called |
| `CoinCollision.CoinPoller.constructor` | src/app/components/Coin.tsx:15 | a new coin is not collected, polls nothing and has reported nothing |
| `CoinCollision.CoinPoller.PollingEffect` | src/app/components/Coin.tsx:22-68 | after the effect a frame is pending iff the coin is not collected |
| `CoinCollision.CoinPoller.Frame` | src/app/components/Coin.tsx:24-59 | a pending frame that hits latches `collected`, calls `onCollect` for the first and only time and schedules nothing; a miss keeps polling and changes nothing else |
| `CoinCollision.FiveFramesInsideHitbox` | src/app/components/Coin.tsx:22-70 | a coin inside the hitbox for five frames calls `onCollect` exactly once |
| `RobotInput.SelectDirection` | src/app/components/Robot.tsx:95-102 | forward wins when both flags are set; movement stops iff neither is |
| `RobotInput.MoveStep` | src/app/components/Robot.tsx:29-31 | one tick moves the background by -5 going forward and +5 going backward |
| `RobotInput.TicksDisplacement` | src/app/components/Robot.tsx:28-31 | n ticks move the background by exactly `-5n` forward or `+5n` backward |
| `RobotInput.BackAndForth` | src/app/components/Robot.tsx:28-31 | n backward ticks undo n forward ticks |
| `RobotInput.Robot.constructor` | src/app/components/Robot.tsx:11-21 | the robot starts in the introduction, not jumping, not moving, with no interval |
| `RobotInput.Robot.StartMovement` | src/app/components/Robot.tsx:26-34 | an interval is created only when none is running |
| `RobotInput.Robot.StopMovement` | src/app/components/Robot.tsx:37-43 | the interval is cleared, and the wheels stop if one was running |
| `RobotInput.Robot.HandleKeyDown` | src/app/components/Robot.tsx:46-64 | space when not airborne sets `jump` and `jumpRef` and ends the introduction; space while airborne changes nothing; once the introduction is over, a movement key sets its own flag and `lastMovement` and leaves the other flag alone; during the introduction it changes nothing |
| `RobotInput.Robot.HandleKeyUp` | src/app/components/Robot.tsx:67-74 | key-up clears only the flag of the released direction |
| `RobotInput.Robot.MovementEffect` | src/app/components/Robot.tsx:95-108 | after the effect exactly one interval runs in the selected direction, or none when neither flag is set |
| `RobotInput.Robot.Tick` | src/app/components/Robot.tsx:28-32 | a tick turns the wheels and moves the background one step in the interval's direction |
| `RobotInput.Robot.JumpTimeout` | src/app/components/Robot.tsx:131-140 | the timeout sets `jump` and `jumpRef` false and nothing else |
| `RobotInput.HoldForward` | src/app/components/Robot.tsx:26-108 | after the first jump, holding the forward key for n ticks from 0 reaches `-5n` |
| `Background.SunX` | src/app/components/BackgroundWrapper.tsx:16-17 | `sunX` is the JS remainder: `abs(sunX) < screenWidth + 125`, it has the sign of `distantPosition` and it differs from it by a whole number of loops |
| `Background.ArcCoefficient` | src/app/components/BackgroundWrapper.tsx:20-23 | `a > 0` and the parabola passes through `startY` at distance `h` from its peak |
| `Background.SunY` | src/app/components/BackgroundWrapper.tsx:24-25 | `sunY` lies in `[-startY, startY]` |
| `Background.RawSunY` | src/app/components/BackgroundWrapper.tsx:24 | the unclamped parabola never rises above its peak height 0 |
| `Background.RawSunYPeakIff` | src/app/components/BackgroundWrapper.tsx:20-24 | before clamping, `sunY = peakY = 0` exactly when `-sunX = screenWidth/2` |
| `Background.SunYAtHorizon` | src/app/components/BackgroundWrapper.tsx:21-25 | `sunY = startY` when `sunX = 0` or `-sunX = screenWidth` |
| `Background.ArcSymmetric` | src/app/components/BackgroundWrapper.tsx:24 | the arc at `h + d` equals the arc at `h - d` |
| `Background.SunYNonNegative` | src/app/components/BackgroundWrapper.tsx:22-25 | `sunY` is in fact always in `[0, startY]` |
| `Background.Opacity` | src/app/components/BackgroundWrapper.tsx:37-40 | for a sun height within `[0, startY]` the opacity lies in `[0.1, 0.6]` |
| `Background.OpacityRange` | src/app/components/BackgroundWrapper.tsx:33-40 | the overlay opacity of every frame lies in `[0.1, 0.6]` |
| `Background.OpacityIncreasing` | src/app/components/BackgroundWrapper.tsx:37-40 | the opacity strictly increases with the sun's height: the lower the sun, the darker the overlay |
| `Background.OpacityEnds` | src/app/components/BackgroundWrapper.tsx:33-40 | the opacity is 0.1 at the peak and 0.6 at the horizon |
| `Background.WrapCloud` | src/app/components/BackgroundWrapper.tsx:54-61 | past the right bound the cloud resets to -150, below -150 it resets to `innerWidth`, otherwise nothing changes |
| `Background.WrapBringsCloudIntoView` | src/app/components/BackgroundWrapper.tsx:54-61 | after the rule, with the pace reset to 0 on a wrap, the cloud's offset lies in `[-150, innerWidth]` |
| `Background.Sky.constructor` | src/app/components/BackgroundWrapper.tsx:11-27 | the cloud starts at 200 and the overlay at 0.7 |
| `Background.Sky.UpdateOpacity` | src/app/components/BackgroundWrapper.tsx:32-44 | one animation frame sets the overlay to the opacity of the current arc height, within `[0.1, 0.6]` |
| `Background.Sky.CloudWrapEffect` | src/app/components/BackgroundWrapper.tsx:54-64 | the effect overwrites `initialPosition` and the parent's cloud position exactly as `WrapCloud` says |
| `SpriteSheet.NextFrame` | src/app/components/CatSpriteSheet.tsx:15 | the next index stays below the order's length, advancing by one and wrapping to 0 at the end |
| `SpriteSheet.FrameAfterAdd` | src/app/components/CatSpriteSheet.tsx:14-15 | m ticks followed by n ticks are m + n ticks |
| `SpriteSheet.FrameAfterWithinCycle` | src/app/components/CatSpriteSheet.tsx:15 | within one pass, k ticks move the index k places, wrapping once |
| `SpriteSheet.CycleReturns` | src/app/components/CatSpriteSheet.tsx:15 | after `frameOrder.length` ticks the index is back where it started |
| `SpriteSheet.FramePeriodic` | src/app/components/CatSpriteSheet.tsx:15 | the index sequence repeats with period `frameOrder.length` |
| `SpriteSheet.FramesPerRow` | src/app/components/CatSpriteSheet.tsx:11 | `framesPerRow * frameSize == spriteSize` |
| `SpriteSheet.DefaultFramesPerRow` | src/app/components/CatSpriteSheet.tsx:5-11 | with the defaults, 4 frames per row |
| `SpriteSheet.CellOf` | src/app/components/CatSpriteSheet.tsx:24-25 | `row*framesPerRow + col == frameNumber` and `0 <= col < framesPerRow` |
| `SpriteSheet.DefaultOrderIsPermutation` | src/app/components/CatSpriteSheet.tsx:7 | the default order is a permutation of 0..8 |
| `SpriteSheet.DefaultCellsInSheet` | src/app/components/CatSpriteSheet.tsx:5-34 | with the defaults, row is at most 2 and col at most 3, so every frame lies inside the 1024-pixel sheet |
| `SpriteSheet.SpriteAnimation.constructor` | src/app/components/CatSpriteSheet.tsx:10 | the frame index starts at 0 |
| `SpriteSheet.SpriteAnimation.Tick` | src/app/components/CatSpriteSheet.tsx:14-15 | one interval firing advances the index as `NextFrame` and keeps it in range |
| `SpriteSheet.SpriteAnimation.CurrentCell` | src/app/components/CatSpriteSheet.tsx:21-25 | the shown cell decomposes the current frame number |
| `AppSlice.InitialState` | src/redux/appSlice.ts:9-12 | both movement flags start false |
| `AppSlice.Reduce` | src/redux/appSlice.ts:18-23 | each setter sets its own flag to the payload and leaves the other flag unchanged |
| `AppSlice.ReduceIdempotent` | src/redux/appSlice.ts:18-23 | dispatching an action twice equals dispatching it once |
| `AppSlice.SettersCommute` | src/redux/appSlice.ts:18-23 | setters of the two different flags commute |
| `AppSlice.ReduceAllLastWins` | src/redux/appSlice.ts:18-23 | after any sequence of actions each flag holds the payload of the last action that set it |
| `AppSlice.ReduceAllSnoc` | src/redux/appSlice.ts:18-23 | dispatching a sequence and then one more action is dispatching the extended sequence |
| `JsMath.Trunc` | src/app/components/BackgroundWrapper.tsx:17 | truncation rounds toward zero |
| `JsMath.JsRem` | src/app/components/BackgroundWrapper.tsx:17 | JS `%` has magnitude below the divisor, the sign of the dividend, is the identity inside one period and differs from the dividend by a whole multiple |
| `JsMath.Clamp` | src/app/components/BackgroundWrapper.tsx:25 | `Math.min(Math.max(v, lo), hi)` lies in `[lo, hi]` and is `v` inside it |

## Left out

- Rendering, CSS and framer-motion animations are left out because they are presentation and foreign library calls. This covers the spring intro, arm swings, wheel rotation and its `latest % rotVal` normalisation, the sun and cloud image placement, and the sprite's `backgroundPosition` string.
- The scheduling of timers and animation frames is not modelled. Each firing is a method called by the environment: `Robot.Tick`, `Robot.JumpTimeout`, `CoinPoller.Frame`, `Sky.UpdateOpacity` and `SpriteAnimation.Tick`. Interval periods (40 ms, 200 ms) and the 500 ms jump duration are therefore not represented. The environment is expected to fire `JumpTimeout` only while `jump` is true, as the effect schedules it.
- React's render batching is not modelled. State setters take effect immediately.
- RobotInput.Robot.HandleKeyDown: the listener is taken to see the current `introduction`. A second key press delivered before the re-render that re-registers the listener is not modelled.
- The start sequence (`handleStart` delays, sound, iris) and `scale` are left out, because they are I/O, timing and sizing.
- Values the shown components read but do not receive are inputs. `isMovingBackwards` (read from the store under a name the slice does not define), `robotY`, `isJumping`, `cloudPace` and the screen sizes are parameters. The mismatches between page.tsx and the props the shown `Robot` and `BackgroundWrapper` declare are not reconciled.
- Background: IEEE floating point is not modelled. Arc and opacity are over `real` and require `screenWidth > 0` and `screenHeight > 0`. The zero-size case, which divides by zero in the source, is excluded.
- SpriteSheet.SpriteAnimation.constructor: requires a non-empty `frameOrder`, natural frame numbers and a `frameSize` that divides `spriteSize`. With other props the source's `framesPerRow` is fractional or `NaN`, and that behaviour is not modelled.
- The audio player, layout, store wiring, iris, text bubble and résumé page are not part of this model.
