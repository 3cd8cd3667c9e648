/**
  The cat animation (src/app/components/CatSpriteSheet.tsx): an interval
  advances a frame index round a custom frame order, and the frame number it
  selects is cut into the row and column of a square sprite sheet.
 */
module SpriteSheet {

  const DefaultSpriteSize: nat := 1024
  const DefaultFrameSize: nat := 256
  const DefaultFrameOrder: seq<nat> := [0, 4, 7, 2, 5, 8, 1, 6, 3]

  /** The interval's update of the frame index. */
  function NextFrame(frameIndex: nat, length: nat): (r: nat)
    requires length > 0
    ensures r < length
    ensures frameIndex + 1 < length ==> r == frameIndex + 1
    ensures frameIndex + 1 == length ==> r == 0
  {
    (frameIndex + 1) % length
  }

  /** The frame index after `n` interval ticks. */
  function FrameAfter(start: nat, length: nat, n: nat): nat
    requires length > 0
  {
    if n == 0 then start else NextFrame(FrameAfter(start, length, n - 1), length)
  }

  /** Ticks compose: `m` ticks followed by `n` ticks are `m + n` ticks. */
  lemma {:induction false} FrameAfterAdd(start: nat, length: nat, m: nat, n: nat)
    requires length > 0
    ensures FrameAfter(start, length, m + n) == FrameAfter(FrameAfter(start, length, m), length, n)
  {
    if n > 0 {
      FrameAfterAdd(start, length, m, n - 1);
    }
  }

  /** Within one pass, `k` ticks move the index `k` places, wrapping once past the end. */
  lemma {:induction false} FrameAfterWithinCycle(start: nat, length: nat, k: nat)
    requires start < length && k <= length
    ensures FrameAfter(start, length, k) == if start + k < length then start + k else start + k - length
  {
    if k > 0 {
      FrameAfterWithinCycle(start, length, k - 1);
    }
  }

  /** One full pass of the frame order brings the index back where it started. */
  lemma CycleReturns(start: nat, length: nat)
    requires start < length
    ensures FrameAfter(start, length, length) == start
  {
    FrameAfterWithinCycle(start, length, length);
  }

  /** The index sequence repeats with period `length`. */
  lemma FramePeriodic(start: nat, length: nat, n: nat)
    requires start < length
    ensures FrameAfter(start, length, n + length) == FrameAfter(start, length, n)
  {
    FrameAfterAdd(start, length, length, n);
    CycleReturns(start, length);
    FrameAfterAdd(start, length, 0, n);
  }

  /** How many frames one row of the sheet holds. */
  function FramesPerRow(spriteSize: nat, frameSize: nat): (r: nat)
    requires frameSize > 0 && spriteSize % frameSize == 0
    ensures r * frameSize == spriteSize
    ensures frameSize <= spriteSize ==> r >= 1
  {
    spriteSize / frameSize
  }

  lemma DefaultFramesPerRow()
    ensures FramesPerRow(DefaultSpriteSize, DefaultFrameSize) == 4
  {
  }

  datatype Cell = Cell(row: nat, col: nat)

  /** `row = Math.floor(frameNumber / framesPerRow)` and `col = frameNumber % framesPerRow`. */
  function CellOf(frameNumber: nat, framesPerRow: nat): (c: Cell)
    requires framesPerRow > 0
    ensures c.row * framesPerRow + c.col == frameNumber
    ensures c.col < framesPerRow
  {
    Cell(frameNumber / framesPerRow, frameNumber % framesPerRow)
  }

  /** The default order shows each of the nine frames exactly once per cycle. */
  lemma DefaultOrderIsPermutation()
    ensures multiset(DefaultFrameOrder) == multiset{0, 1, 2, 3, 4, 5, 6, 7, 8}
  {
  }

  /** With the defaults, every frame's offsets stay inside the 1024-pixel sheet. */
  lemma DefaultCellsInSheet(i: nat)
    requires i < |DefaultFrameOrder|
    ensures var c := CellOf(DefaultFrameOrder[i], FramesPerRow(DefaultSpriteSize, DefaultFrameSize));
      && c.row <= 2 && c.col <= 3
      && (c.col + 1) * DefaultFrameSize <= DefaultSpriteSize
      && (c.row + 1) * DefaultFrameSize <= DefaultSpriteSize
  {
    DefaultFramesPerRow();
    assert DefaultFrameOrder[i] <= 8;
  }

  class SpriteAnimation {
    const frameOrder: seq<nat>
    const spriteSize: nat
    const frameSize: nat
    var frameIndex: nat

    ghost predicate Valid()
      reads this
    {
      && |frameOrder| > 0
      && frameIndex < |frameOrder|
      && 0 < frameSize <= spriteSize && spriteSize % frameSize == 0
    }

    constructor (frameOrder: seq<nat>, spriteSize: nat, frameSize: nat)
      requires |frameOrder| > 0
      requires 0 < frameSize <= spriteSize && spriteSize % frameSize == 0
      ensures Valid()
      ensures this.frameOrder == frameOrder && this.spriteSize == spriteSize && this.frameSize == frameSize
      ensures frameIndex == 0
    {
      this.frameOrder := frameOrder;
      this.spriteSize := spriteSize;
      this.frameSize := frameSize;
      frameIndex := 0;
    }

    /** One firing of the frame interval. */
    method Tick()
      requires Valid()
      modifies this`frameIndex
      ensures Valid()
      ensures frameIndex == NextFrame(old(frameIndex), |frameOrder|)
    {
      frameIndex := (frameIndex + 1) % |frameOrder|;
    }

    /** The cell of the sheet shown now. */
    function CurrentCell(): (c: Cell)
      reads this
      requires Valid()
      ensures c.row * FramesPerRow(spriteSize, frameSize) + c.col == frameOrder[frameIndex]
      ensures c.col < FramesPerRow(spriteSize, frameSize)
    {
      CellOf(frameOrder[frameIndex], FramesPerRow(spriteSize, frameSize))
    }
  }
}
