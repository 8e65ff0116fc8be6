/** Barriers and coins: how the spawner creates them at the right edge of the
    canvas and how each tick scrolls them left and retires them off-screen. */
module Entities {
  import opened Seqs
  import opened Difficulty

  const FLOOR_HEIGHT: real := 50.0
  /** A barrier is retired once its x is no longer beyond this. */
  const BARRIER_RETIRE_X: real := -100.0
  /** A coin is retired once its x is no longer beyond this. */
  const COIN_RETIRE_X: real := -30.0
  /** Per-tick chance that a barrier spawns. */
  const BARRIER_CHANCE: real := 0.01
  /** Per-tick chance that a coin spawns when at least MIN_COINS are on screen. */
  const COIN_CHANCE: real := 0.05
  const MIN_COINS: nat := 3
  const BARRIER_MIN_HEIGHT: real := 60.0
  const BARRIER_HEIGHT_RANGE: real := 60.0
  /** The tallest a barrier can be made, never reached. */
  const BARRIER_MAX_HEIGHT: real := BARRIER_MIN_HEIGHT + BARRIER_HEIGHT_RANGE * MAX_DIFFICULTY
  /** Height of the lowest coin's top edge above the floor line. */
  const COIN_LIFT: real := 30.0
  /** Range of the random vertical offset of a coin. */
  const COIN_JITTER: real := 100.0
  /** Least distance between two entities of one kind: each tick spawns at most
      one and then scrolls it by the speed, which is never below its start value. */
  const MIN_GAP: real := INITIAL_SPEED

  datatype Barrier = Barrier(x: real, y: real, width: real, height: real)
  datatype Coin = Coin(x: real, y: real)

  /** A value of Math.random(). */
  predicate IsDraw(r: real)
  {
    0.0 <= r < 1.0
  }

  function BarrierX(b: Barrier): real { b.x }
  function CoinX(c: Coin): real { c.x }

  /** Math.min(30, W / 26). */
  function BarrierWidth(W: real): (w: real)
    ensures w <= 30.0 && w <= W / 26.0
    ensures w == 30.0 || w == W / 26.0
  {
    if 30.0 < W / 26.0 then 30.0 else W / 26.0
  }

  /** What every barrier on screen looks like: standing on the floor, of the
      fixed width, between the least and the greatest height. */
  predicate StandsOnFloor(b: Barrier, W: real, H: real)
  {
    b.y + b.height == H - FLOOR_HEIGHT &&
    BARRIER_MIN_HEIGHT <= b.height < BARRIER_MAX_HEIGHT &&
    b.width == BarrierWidth(W)
  }

  /** What every coin on screen looks like: its top edge in the band of
      COIN_JITTER pixels that ends COIN_LIFT pixels above the floor. */
  predicate InCoinBand(c: Coin, H: real)
  {
    H - FLOOR_HEIGHT - COIN_LIFT - COIN_JITTER < c.y <= H - FLOOR_HEIGHT - COIN_LIFT
  }

  /** The barrier the spawner creates with height draw `r` at run time `time`. */
  function NewBarrier(W: real, H: real, time: nat, r: real): (b: Barrier)
    requires IsDraw(r)
    ensures b.x == W
    ensures StandsOnFloor(b, W, H)
    ensures b.height <= BARRIER_MIN_HEIGHT + BARRIER_HEIGHT_RANGE * DifficultyAt(time)
    ensures time == 0 ==> b.height == BARRIER_MIN_HEIGHT
  {
    var d := DifficultyAt(time);
    var share := r * d;
    assert 0.0 <= share <= d && share < MAX_DIFFICULTY by {
      if d > 0.0 {
        assert share < d;
      }
    }
    var spread := r * BARRIER_HEIGHT_RANGE * d;
    assert spread == BARRIER_HEIGHT_RANGE * share;
    var height := BARRIER_MIN_HEIGHT + spread;
    Barrier(W, H - FLOOR_HEIGHT - height, BarrierWidth(W), height)
  }

  /** The coin the spawner creates with vertical draw `r`. */
  function NewCoin(W: real, H: real, r: real): (c: Coin)
    requires IsDraw(r)
    ensures c.x == W
    ensures InCoinBand(c, H)
  {
    Coin(W, H - FLOOR_HEIGHT - COIN_LIFT - r * COIN_JITTER)
  }

  function ShiftBarrier(speed: real): Barrier -> Barrier
  {
    (b: Barrier) => b.(x := b.x - speed)
  }

  function ShiftCoin(speed: real): Coin -> Coin
  {
    (c: Coin) => c.(x := c.x - speed)
  }

  predicate BarrierOnScreen(b: Barrier) { b.x > BARRIER_RETIRE_X }
  predicate CoinOnScreen(c: Coin) { c.x > COIN_RETIRE_X }

  /** One tick of barrier scrolling: every barrier moves left by `speed`,
      then those that left the screen are dropped. */
  function MoveBarriers(bs: seq<Barrier>, speed: real): (r: seq<Barrier>)
    ensures |r| <= |bs|
    ensures forall i :: 0 <= i < |r| ==> r[i].x > BARRIER_RETIRE_X
  {
    Filter(Map(bs, ShiftBarrier(speed)), BarrierOnScreen)
  }

  /** One tick of coin scrolling: every coin moves left by `speed`, then those
      that left the screen are dropped. */
  function MoveCoins(cs: seq<Coin>, speed: real): (r: seq<Coin>)
    ensures |r| <= |cs|
    ensures forall i :: 0 <= i < |r| ==> r[i].x > COIN_RETIRE_X
  {
    Filter(Map(cs, ShiftCoin(speed)), CoinOnScreen)
  }

  /** The barriers that survive a tick are exactly those whose shifted
      position is still on screen, each moved by exactly `speed` and
      otherwise unchanged. */
  lemma MoveBarriersSurvivors(bs: seq<Barrier>, speed: real)
    ensures forall i :: 0 <= i < |MoveBarriers(bs, speed)| ==>
      exists j :: 0 <= j < |bs| && MoveBarriers(bs, speed)[i] == bs[j].(x := bs[j].x - speed)
    ensures forall j :: 0 <= j < |bs| && bs[j].x - speed > BARRIER_RETIRE_X ==>
      bs[j].(x := bs[j].x - speed) in MoveBarriers(bs, speed)
  {
    var shifted := Map(bs, ShiftBarrier(speed));
    FilterMembers(shifted, BarrierOnScreen);
    assert forall j :: 0 <= j < |bs| ==> shifted[j] == bs[j].(x := bs[j].x - speed);
    var r := MoveBarriers(bs, speed);
    forall i | 0 <= i < |r|
      ensures exists j :: 0 <= j < |bs| && r[i] == bs[j].(x := bs[j].x - speed)
    {
      assert r[i] in shifted;
      var k :| 0 <= k < |shifted| && shifted[k] == r[i];
      assert r[i] == bs[k].(x := bs[k].x - speed);
    }
  }

  /** The coins that survive a tick are exactly those whose shifted position
      is still on screen, each moved by exactly `speed` and otherwise
      unchanged. */
  lemma MoveCoinsSurvivors(cs: seq<Coin>, speed: real)
    ensures forall i :: 0 <= i < |MoveCoins(cs, speed)| ==>
      exists j :: 0 <= j < |cs| && MoveCoins(cs, speed)[i] == cs[j].(x := cs[j].x - speed)
    ensures forall j :: 0 <= j < |cs| && cs[j].x - speed > COIN_RETIRE_X ==>
      cs[j].(x := cs[j].x - speed) in MoveCoins(cs, speed)
  {
    var shifted := Map(cs, ShiftCoin(speed));
    FilterMembers(shifted, CoinOnScreen);
    assert forall j :: 0 <= j < |cs| ==> shifted[j] == cs[j].(x := cs[j].x - speed);
    var r := MoveCoins(cs, speed);
    forall i | 0 <= i < |r|
      ensures exists j :: 0 <= j < |cs| && r[i] == cs[j].(x := cs[j].x - speed)
    {
      assert r[i] in shifted;
      var k :| 0 <= k < |shifted| && shifted[k] == r[i];
      assert r[i] == cs[k].(x := cs[k].x - speed);
    }
  }

  /** Scrolling keeps the barriers in spawn order. */
  lemma MoveBarriersKeepsOrder(bs: seq<Barrier>, speed: real)
    ensures IsSubsequence(MoveBarriers(bs, speed), Map(bs, ShiftBarrier(speed)))
  {
    FilterIsSubsequence(Map(bs, ShiftBarrier(speed)), BarrierOnScreen);
  }

  /** Scrolling keeps the coins in spawn order. */
  lemma MoveCoinsKeepsOrder(cs: seq<Coin>, speed: real)
    ensures IsSubsequence(MoveCoins(cs, speed), Map(cs, ShiftCoin(speed)))
  {
    FilterIsSubsequence(Map(cs, ShiftCoin(speed)), CoinOnScreen);
  }

  /** The layout every barrier list keeps between ticks: each barrier stands
      on the floor between the retirement line and the spawn edge, and the
      barriers are spaced apart in spawn order. */
  ghost predicate BarriersLaidOut(bs: seq<Barrier>, W: real, H: real)
  {
    (forall i :: 0 <= i < |bs| ==>
      BARRIER_RETIRE_X < bs[i].x <= W && StandsOnFloor(bs[i], W, H)) &&
    Spaced(bs, BarrierX, MIN_GAP)
  }

  /** The layout every coin list keeps between ticks: each coin lies in its
      band between the retirement line and the spawn edge, and the coins are
      spaced apart in spawn order. */
  ghost predicate CoinsLaidOut(cs: seq<Coin>, W: real, H: real)
  {
    (forall i :: 0 <= i < |cs| ==>
      COIN_RETIRE_X < cs[i].x <= W && InCoinBand(cs[i], H)) &&
    Spaced(cs, CoinX, MIN_GAP)
  }

  /** Scrolling left by any speed keeps the barrier layout and moves every
      barrier at least that far left of the spawn edge. */
  lemma MoveBarriersKeepsLayout(bs: seq<Barrier>, speed: real, W: real, H: real)
    requires BarriersLaidOut(bs, W, H) && speed >= 0.0
    ensures BarriersLaidOut(MoveBarriers(bs, speed), W, H)
    ensures forall i :: 0 <= i < |MoveBarriers(bs, speed)| ==> MoveBarriers(bs, speed)[i].x <= W - speed
  {
    SpacedMap(bs, ShiftBarrier(speed), BarrierX, MIN_GAP, -speed);
    FilterSpaced(Map(bs, ShiftBarrier(speed)), BarrierOnScreen, BarrierX, MIN_GAP);
    MoveBarriersSurvivors(bs, speed);
  }

  /** A barrier spawned at the edge, right of every barrier by the least gap,
      keeps the barrier layout. */
  lemma SpawnBarrierKeepsLayout(bs: seq<Barrier>, b: Barrier, W: real, H: real)
    requires BarriersLaidOut(bs, W, H)
    requires forall i :: 0 <= i < |bs| ==> bs[i].x <= W - MIN_GAP
    requires b.x == W && StandsOnFloor(b, W, H) && 0.0 <= W
    ensures BarriersLaidOut(bs + [b], W, H)
  {
    SpacedSnoc(bs, b, BarrierX, MIN_GAP);
    var r := bs + [b];
    forall i | 0 <= i < |r|
      ensures BARRIER_RETIRE_X < r[i].x <= W && StandsOnFloor(r[i], W, H)
    {
      if i < |bs| { assert r[i] == bs[i]; }
    }
  }

  /** Scrolling left by any speed keeps the coin layout and moves every coin
      at least that far left of the spawn edge. */
  lemma MoveCoinsKeepsLayout(cs: seq<Coin>, speed: real, W: real, H: real)
    requires CoinsLaidOut(cs, W, H) && speed >= 0.0
    ensures CoinsLaidOut(MoveCoins(cs, speed), W, H)
    ensures forall i :: 0 <= i < |MoveCoins(cs, speed)| ==> MoveCoins(cs, speed)[i].x <= W - speed
  {
    SpacedMap(cs, ShiftCoin(speed), CoinX, MIN_GAP, -speed);
    FilterSpaced(Map(cs, ShiftCoin(speed)), CoinOnScreen, CoinX, MIN_GAP);
    MoveCoinsSurvivors(cs, speed);
  }

  /** A coin spawned at the edge, right of every coin by the least gap, keeps
      the coin layout. */
  lemma SpawnCoinKeepsLayout(cs: seq<Coin>, c: Coin, W: real, H: real)
    requires CoinsLaidOut(cs, W, H)
    requires forall i :: 0 <= i < |cs| ==> cs[i].x <= W - MIN_GAP
    requires c.x == W && InCoinBand(c, H) && 0.0 <= W
    ensures CoinsLaidOut(cs + [c], W, H)
  {
    SpacedSnoc(cs, c, CoinX, MIN_GAP);
    var r := cs + [c];
    forall i | 0 <= i < |r|
      ensures COIN_RETIRE_X < r[i].x <= W && InCoinBand(r[i], H)
    {
      if i < |cs| { assert r[i] == cs[i]; }
    }
  }

  /** Removing coins keeps the coin layout. */
  lemma FilterCoinsKeepsLayout(cs: seq<Coin>, p: Coin -> bool, W: real, H: real)
    requires CoinsLaidOut(cs, W, H)
    ensures CoinsLaidOut(Filter(cs, p), W, H)
  {
    FilterSpaced(cs, p, CoinX, MIN_GAP);
    FilterMembers(cs, p);
    var r := Filter(cs, p);
    forall i | 0 <= i < |r|
      ensures COIN_RETIRE_X < r[i].x <= W && InCoinBand(r[i], H)
    {
      var j :| 0 <= j < |cs| && cs[j] == r[i];
    }
  }

  /** Spaced barriers between the retirement line and the spawn edge are few:
      the number on screen is bounded by the width of that strip. */
  lemma BarrierCountBound(bs: seq<Barrier>, W: real, H: real)
    requires BarriersLaidOut(bs, W, H)
    ensures MIN_GAP * (|bs| as real - 1.0) < W - BARRIER_RETIRE_X || bs == []
  {
    if bs != [] {
      SpacedSpan(bs, BarrierX, MIN_GAP);
    }
  }

  /** Spaced coins between the retirement line and the spawn edge are few:
      the number on screen is bounded by the width of that strip. */
  lemma CoinCountBound(cs: seq<Coin>, W: real, H: real)
    requires CoinsLaidOut(cs, W, H)
    ensures MIN_GAP * (|cs| as real - 1.0) < W - COIN_RETIRE_X || cs == []
  {
    if cs != [] {
      SpacedSpan(cs, CoinX, MIN_GAP);
    }
  }
}
