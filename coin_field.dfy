/**
  The coin pattern of the home page (src/app/page.tsx): the world is cut into
  segments of `CoinRate` pixels; each time the robot, not moving backwards,
  reaches a segment further right than any before, one coin is spawned just
  past the right edge of the screen, and coins far behind are dropped. A
  collected coin is removed by id, and only coins near the screen are drawn.

  `backgroundPosition` starts at 0 and only moves in steps of 5 pixels, and
  `window.innerWidth` is a whole number of pixels, so positions are `int`.
 */
module CoinField {

  /** One coin every 500 pixels of travel. */
  const CoinRate: int := 500
  /** The vertical offsets coins cycle through, relative to the robot's y. */
  const CoinYOffset: seq<int> := [50, -20, -10]

  datatype Coin = Coin(x: int, y: int, id: int)

  /** The coin pattern's state: the two refs and the `coins` state of the page. */
  datatype Field = Field(lastGeneratedSegment: int, lastCoinIndex: nat, coins: seq<Coin>)

  /** `Math.floor(backgroundPosition / -coinRate)`: the segment the robot has reached. */
  function Segment(backgroundPosition: int): (s: int)
    ensures s * CoinRate <= -backgroundPosition < (s + 1) * CoinRate
  {
    (-backgroundPosition) / CoinRate
  }

  // ---------------------------------------------------------------- filtering

  /** `Array.prototype.filter`: the elements that satisfy `keep`, in their original order. */
  function Filter<T(!new)>(s: seq<T>, keep: T -> bool): (r: seq<T>)
    ensures |r| <= |s|
    ensures forall c :: c in r <==> c in s && keep(c)
  {
    if s == [] then []
    else (if keep(s[0]) then [s[0]] else []) + Filter(s[1..], keep)
  }

  /** Filtering distributes over concatenation: the survivors keep their relative order. */
  lemma {:induction false} FilterAppend<T(!new)>(a: seq<T>, b: seq<T>, keep: T -> bool)
    ensures Filter(a + b, keep) == Filter(a, keep) + Filter(b, keep)
  {
    if a == [] {
      assert a + b == b;
    } else {
      assert (a + b)[1..] == a[1..] + b;
      FilterAppend(a[1..], b, keep);
    }
  }

  /** Ids strictly increase along the list, so no two coins share one. */
  ghost predicate IdsIncreasing(coins: seq<Coin>)
  {
    forall i, j :: 0 <= i < j < |coins| ==> coins[i].id < coins[j].id
  }

  /** Filtering keeps ids strictly increasing. */
  lemma {:induction false} FilterKeepsIdsIncreasing(coins: seq<Coin>, keep: Coin -> bool)
    requires IdsIncreasing(coins)
    ensures IdsIncreasing(Filter(coins, keep))
  {
    if coins != [] {
      var rest := Filter(coins[1..], keep);
      FilterKeepsIdsIncreasing(coins[1..], keep);
      if keep(coins[0]) {
        var r := [coins[0]] + rest;
        forall i, j | 0 <= i < j < |r| ensures r[i].id < r[j].id {
          if i == 0 {
            assert r[j] in coins[1..];
          }
        }
      }
    }
  }

  /** The cull rule: a coin is kept while it is less than one and a half screens behind. */
  predicate Kept(c: Coin, backgroundPosition: int, screenWidth: int)
  {
    c.x as real > -backgroundPosition as real - screenWidth as real * 1.5
  }

  function Cull(coins: seq<Coin>, backgroundPosition: int, screenWidth: int): (r: seq<Coin>)
    ensures forall c :: c in r <==> c in coins && Kept(c, backgroundPosition, screenWidth)
  {
    Filter(coins, c => Kept(c, backgroundPosition, screenWidth))
  }

  /** `handleCollectCoin`: drop every coin with the given id. */
  function RemoveCoin(coins: seq<Coin>, coinId: int): (r: seq<Coin>)
    ensures forall c :: c in r <==> c in coins && c.id != coinId
  {
    Filter(coins, (c: Coin) => c.id != coinId)
  }

  /** Collecting a coin keeps the other coins in order: it distributes over any split of the list. */
  lemma RemoveCoinKeepsOrder(a: seq<Coin>, b: seq<Coin>, coinId: int)
    ensures RemoveCoin(a + b, coinId) == RemoveCoin(a, coinId) + RemoveCoin(b, coinId)
  {
    FilterAppend(a, b, (c: Coin) => c.id != coinId);
  }

  /** A coin is drawn while its screen x lies strictly within 100 pixels of the screen. */
  predicate OnScreen(c: Coin, backgroundPosition: int, screenWidth: int)
  {
    -100 < c.x + backgroundPosition < screenWidth + 100
  }

  /** The coins the page renders. */
  function Visible(coins: seq<Coin>, backgroundPosition: int, screenWidth: int): (r: seq<Coin>)
    ensures forall c :: c in r <==> c in coins && OnScreen(c, backgroundPosition, screenWidth)
  {
    Filter(coins, c => OnScreen(c, backgroundPosition, screenWidth))
  }

  // ---------------------------------------------------------------- spawning

  /** The state right after mounting at the given position. */
  function Init(backgroundPosition: int): (f: Field)
    ensures f.coins == [] && f.lastCoinIndex == 0
    ensures backgroundPosition == 0 ==> f.lastGeneratedSegment == 0
  {
    Field(Segment(backgroundPosition), 0, [])
  }

  /** Whether the spawn effect fires. */
  function Spawns(f: Field, backgroundPosition: int, isMovingBackwards: bool): (r: bool)
    ensures r <==> !isMovingBackwards && -backgroundPosition >= (f.lastGeneratedSegment + 1) * CoinRate
  {
    !isMovingBackwards && Segment(backgroundPosition) > f.lastGeneratedSegment
  }

  /** The coin that a spawn appends. */
  function NewCoin(f: Field, backgroundPosition: int, robotY: int, screenWidth: int): (c: Coin)
    ensures c.x == -backgroundPosition + screenWidth
    ensures c.y - robotY in CoinYOffset
    ensures c.y == robotY + CoinYOffset[f.lastCoinIndex % |CoinYOffset|]
    ensures c.id == Segment(backgroundPosition)
  {
    Coin(-backgroundPosition + screenWidth,
         robotY + CoinYOffset[f.lastCoinIndex % |CoinYOffset|],
         Segment(backgroundPosition))
  }

  /** One run of the coin-spawn effect. */
  function Spawn(f: Field, backgroundPosition: int, isMovingBackwards: bool, robotY: int, screenWidth: int): (r: Field)
    ensures !Spawns(f, backgroundPosition, isMovingBackwards) ==> r == f
    ensures Spawns(f, backgroundPosition, isMovingBackwards) ==>
      && r.lastGeneratedSegment == Segment(backgroundPosition) > f.lastGeneratedSegment
      && r.lastCoinIndex == f.lastCoinIndex + 1
      && r.coins == Cull(f.coins, backgroundPosition, screenWidth) + [NewCoin(f, backgroundPosition, robotY, screenWidth)]
  {
    if Spawns(f, backgroundPosition, isMovingBackwards) then
      Field(Segment(backgroundPosition), f.lastCoinIndex + 1,
            Cull(f.coins, backgroundPosition, screenWidth) + [NewCoin(f, backgroundPosition, robotY, screenWidth)])
    else f
  }

  /**
    Heights go round-robin over spawns, whatever happened in between: the
    coin a spawn appends takes the palette entry of the current index, and
    the index moves on by exactly one, so the k-th spawn since mounting uses
    entry `k mod 3`.
   */
  lemma SpawnedCoinHeight(f: Field, backgroundPosition: int, isMovingBackwards: bool, robotY: int, screenWidth: int)
    requires Spawns(f, backgroundPosition, isMovingBackwards)
    ensures var r := Spawn(f, backgroundPosition, isMovingBackwards, robotY, screenWidth);
      && |r.coins| > 0
      && r.coins[|r.coins| - 1].y == robotY + CoinYOffset[f.lastCoinIndex % |CoinYOffset|]
      && r.lastCoinIndex == f.lastCoinIndex + 1
  {
  }

  /** The field's invariant: ids strictly increase and none lies beyond the last generated segment. */
  ghost predicate Inv(f: Field)
  {
    && IdsIncreasing(f.coins)
    && forall c :: c in f.coins ==> c.id <= f.lastGeneratedSegment
  }

  lemma InitInv(backgroundPosition: int)
    ensures Inv(Init(backgroundPosition))
  {
  }

  /** A spawn keeps ids strictly increasing, because a new coin's segment exceeds every earlier one. */
  lemma SpawnKeepsInv(f: Field, backgroundPosition: int, isMovingBackwards: bool, robotY: int, screenWidth: int)
    requires Inv(f)
    ensures Inv(Spawn(f, backgroundPosition, isMovingBackwards, robotY, screenWidth))
    ensures f.lastGeneratedSegment <= Spawn(f, backgroundPosition, isMovingBackwards, robotY, screenWidth).lastGeneratedSegment
  {
    if Spawns(f, backgroundPosition, isMovingBackwards) {
      var kept := Cull(f.coins, backgroundPosition, screenWidth);
      var c := NewCoin(f, backgroundPosition, robotY, screenWidth);
      FilterKeepsIdsIncreasing(f.coins, x => Kept(x, backgroundPosition, screenWidth));
      var r := kept + [c];
      forall i, j | 0 <= i < j < |r| ensures r[i].id < r[j].id {
        if j == |r| - 1 {
          assert r[i] in f.coins;
        } else {
          assert r[i] == kept[i] && r[j] == kept[j];
        }
      }
    }
  }

  /** `handleCollectCoin` on the field. */
  function Collect(f: Field, coinId: int): (r: Field)
    ensures r.lastGeneratedSegment == f.lastGeneratedSegment && r.lastCoinIndex == f.lastCoinIndex
    ensures forall c :: c in r.coins <==> c in f.coins && c.id != coinId
  {
    f.(coins := RemoveCoin(f.coins, coinId))
  }

  lemma CollectKeepsInv(f: Field, coinId: int)
    requires Inv(f)
    ensures Inv(Collect(f, coinId))
  {
    FilterKeepsIdsIncreasing(f.coins, (c: Coin) => c.id != coinId);
  }

  // ---------------------------------------------------------------- spawn cadence

  /** The field after moving forward `n` ticks of 5 pixels from position 0, the effect running after each tick. */
  function DriveForward(n: nat, robotY: int, screenWidth: int): Field
  {
    if n == 0 then Init(0)
    else Spawn(DriveForward(n - 1, robotY, screenWidth), -5 * n, false, robotY, screenWidth)
  }

  /**
    Driving forward from 0 spawns exactly one coin per segment crossed: after
    `n` ticks (position `-5 * n`) the segments 1 .. n / 100 each produced one
    coin, and every coin's height follows the 50, -20, -10 cycle by its id.
   */
  lemma {:induction false} SpawnCadence(n: nat, robotY: int, screenWidth: int)
    ensures var f := DriveForward(n, robotY, screenWidth);
      && f.lastGeneratedSegment == n / 100
      && f.lastCoinIndex == n / 100
      && Inv(f)
      && forall c :: c in f.coins ==> 1 <= c.id && c.y == robotY + CoinYOffset[(c.id - 1) % 3]
  {
    if n > 0 {
      var prev := DriveForward(n - 1, robotY, screenWidth);
      SpawnCadence(n - 1, robotY, screenWidth);
      SegmentOfTicks(n);
      SpawnKeepsInv(prev, -5 * n, false, robotY, screenWidth);
    }
  }

  lemma SegmentOfTicks(n: nat)
    requires n > 0
    ensures Segment(-5 * n) == n / 100
    ensures n / 100 == (n - 1) / 100 || n / 100 == (n - 1) / 100 + 1
  {
    assert 5 * n / 500 == n / 100;
  }

  /** Scrolling from 0 to -2000 spawns exactly four coins. */
  lemma FourCoinsBy2000(robotY: int, screenWidth: int)
    ensures DriveForward(400, robotY, screenWidth).lastCoinIndex == 4
  {
    SpawnCadence(400, robotY, screenWidth);
  }

  // ---------------------------------------------------------------- component state

  /** The home page's coin state: the two refs and the `coins` state variable. */
  class CoinSpawner {
    var lastGeneratedSegment: int
    var lastCoinIndex: nat
    var coins: seq<Coin>

    function State(): Field
      reads this
    {
      Field(lastGeneratedSegment, lastCoinIndex, coins)
    }

    ghost predicate Valid()
      reads this
    {
      Inv(State())
    }

    /** Mounting: the refs start from the current position and no coin exists. */
    constructor (backgroundPosition: int)
      ensures State() == Init(backgroundPosition) && Valid()
    {
      lastGeneratedSegment := Segment(backgroundPosition);
      lastCoinIndex := 0;
      coins := [];
    }

    /** The coin-spawn effect, run whenever the position, direction or robot height changes. */
    method SpawnEffect(backgroundPosition: int, isMovingBackwards: bool, robotY: int, screenWidth: int)
      requires Valid()
      modifies this
      ensures Valid()
      ensures State() == Spawn(old(State()), backgroundPosition, isMovingBackwards, robotY, screenWidth)
    {
      var currentSegment := Segment(backgroundPosition);
      if !isMovingBackwards && currentSegment > lastGeneratedSegment {
        ghost var before := State();
        SpawnKeepsInv(before, backgroundPosition, isMovingBackwards, robotY, screenWidth);
        lastGeneratedSegment := currentSegment;
        var nextHeightIndex := lastCoinIndex % |CoinYOffset|;
        lastCoinIndex := lastCoinIndex + 1;
        var filteredCoins := Cull(coins, backgroundPosition, screenWidth);
        var newCoin := Coin(-backgroundPosition + screenWidth, robotY + CoinYOffset[nextHeightIndex], currentSegment);
        coins := filteredCoins + [newCoin];
      }
    }

    /** `handleCollectCoin`. */
    method HandleCollectCoin(coinId: int)
      requires Valid()
      modifies this`coins
      ensures Valid()
      ensures State() == Collect(old(State()), coinId)
    {
      CollectKeepsInv(State(), coinId);
      coins := RemoveCoin(coins, coinId);
    }
  }
}
