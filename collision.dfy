/** Collision and scoring: coins the player touches are collected, one point
    each, and touching any barrier ends the run. The player's hit box is a
    40-pixel square at its top-left corner, smaller than its 50-pixel size. */
module Collision {
  import opened Seqs
  import opened Entities
  import opened Physics

  const HIT_BOX: real := 40.0

  function Abs(r: real): (a: real)
    ensures a >= 0.0 && (a == r || a == -r)
  {
    if r < 0.0 then -r else r
  }

  /** Whether (x, y) lies strictly inside the player's hit box. */
  predicate InHitBox(p: Player, x: real, y: real)
  {
    p.x < x < p.x + HIT_BOX && p.y < y < p.y + HIT_BOX
  }

  /** Whether (x, y) lies strictly inside a barrier's rectangle. */
  predicate InBarrier(b: Barrier, x: real, y: real)
  {
    b.x < x < b.x + b.width && b.y < y < b.y + b.height
  }

  /** Strict overlap of the player's hit box with a barrier's rectangle: for
      a barrier of positive size, the two share a point of their interiors. */
  predicate Overlaps(p: Player, b: Barrier): (hit: bool)
    ensures b.width > 0.0 && b.height > 0.0 ==>
      (hit <==> exists x, y :: InHitBox(p, x, y) && InBarrier(b, x, y))
  {
    var x := (Max(p.x, b.x) + Min(p.x + HIT_BOX, b.x + b.width)) / 2.0;
    var y := (Max(p.y, b.y) + Min(p.y + HIT_BOX, b.y + b.height)) / 2.0;
    var hit := p.x + HIT_BOX > b.x && p.x < b.x + b.width &&
               p.y + HIT_BOX > b.y && p.y < b.y + b.height;
    assert hit && b.width > 0.0 && b.height > 0.0 ==> InHitBox(p, x, y) && InBarrier(b, x, y);
    hit
  }

  function Max(a: real, b: real): real { if a < b then b else a }
  function Min(a: real, b: real): real { if a < b then a else b }

  /** Whether the player touches some barrier; the first one found decides. */
  function CheckCollision(bs: seq<Barrier>, p: Player): (hit: bool)
    ensures hit <==> exists i :: 0 <= i < |bs| && Overlaps(p, bs[i])
  {
    if bs == [] then false
    else Overlaps(p, bs[0]) || CheckCollision(bs[1..], p)
  }

  /** The coin-pickup test: the coin's corner lies within 40 pixels of the
      player's corner along both axes. */
  predicate CoinHit(p: Player, c: Coin): (hit: bool)
    ensures hit <==> p.x - HIT_BOX < c.x < p.x + HIT_BOX && p.y - HIT_BOX < c.y < p.y + HIT_BOX
  {
    Abs(c.x - p.x) < HIT_BOX && Abs(c.y - p.y) < HIT_BOX
  }

  /** Two squares of side `s` with top-left corners at (x1, y1) and (x2, y2)
      share an interior point. */
  predicate SquaresOverlap(x1: real, y1: real, x2: real, y2: real, s: real)
  {
    x1 < x2 + s && x2 < x1 + s && y1 < y2 + s && y2 < y1 + s
  }

  /** The pickup test is exactly the overlap of the player's hit box with a
      square of the same size placed at the coin. */
  lemma CoinHitIsBoxOverlap(p: Player, c: Coin)
    ensures CoinHit(p, c) <==> SquaresOverlap(p.x, p.y, c.x, c.y, HIT_BOX)
  {
  }

  function Touched(p: Player): Coin -> bool
  {
    (c: Coin) => CoinHit(p, c)
  }

  function Untouched(p: Player): Coin -> bool
  {
    (c: Coin) => !CoinHit(p, c)
  }

  /** The pickup pass: walk the coins in order, dropping each one the player
      touches and counting it towards the score. */
  method CollectCoins(coins: seq<Coin>, p: Player) returns (kept: seq<Coin>, collected: nat)
    ensures kept == Filter(coins, Untouched(p))
    ensures collected == |Filter(coins, Touched(p))|
    ensures collected + |kept| == |coins|
  {
    kept, collected := [], 0;
    var i := 0;
    while i < |coins|
      invariant i <= |coins|
      invariant kept == Filter(coins[..i], Untouched(p))
      invariant collected == |Filter(coins[..i], Touched(p))|
    {
      assert coins[..i + 1] == coins[..i] + [coins[i]];
      FilterSnoc(coins[..i], coins[i], Untouched(p));
      FilterSnoc(coins[..i], coins[i], Touched(p));
      if CoinHit(p, coins[i]) {
        collected := collected + 1;
      } else {
        kept := kept + [coins[i]];
      }
      i := i + 1;
    }
    assert coins[..i] == coins;
    FilterPartition(coins, Touched(p), Untouched(p));
  }

  /** Pickup removes exactly the touched coins and keeps the rest in order. */
  lemma PickupKeepsUntouched(coins: seq<Coin>, p: Player)
    ensures forall c :: c in Filter(coins, Untouched(p)) <==> c in coins && !CoinHit(p, c)
    ensures IsSubsequence(Filter(coins, Untouched(p)), coins)
  {
    FilterMembers(coins, Untouched(p));
    FilterIsSubsequence(coins, Untouched(p));
  }

  /** A player standing on the floor hits every floor-standing barrier that
      shares its columns: staying on the ground is never safe. */
  lemma GroundedPlayerHitsBarrier(p: Player, b: Barrier, W: real, H: real)
    requires p.y == FloorY(H) && StandsOnFloor(b, W, H)
    requires p.x + HIT_BOX > b.x && p.x < b.x + b.width
    ensures Overlaps(p, b)
  {
  }
}
