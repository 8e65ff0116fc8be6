/** The running game: the state the page keeps between animation frames and
    the operations that change it — a tick of the game loop, a jump, the start
    of a run and its end. */
module Simulation {
  import opened Seqs
  import opened Difficulty
  import opened Entities
  import opened Physics
  import opened Collision
  import opened Handles

  /** The player's top edge before any run has started. */
  const INITIAL_PLAYER_Y: real := 300.0

  class Game {
    /** Canvas width and height. */
    const W: real
    const H: real

    var player: Player
    var barriers: seq<Barrier>
    var coins: seq<Coin>
    var score: nat
    var speed: real
    /** Milliseconds of run time, advanced one frame per tick. */
    var time: nat
    var started: bool

    /** What holds between ticks: the player is on or above the floor during a
        run and has used at most two jumps; every barrier stands on the floor
        and every coin lies in its band, all between their retirement line and
        the spawn edge and spaced apart in spawn order; the clock is frame
        aligned and the speed is the one the clock calls for. */
    ghost predicate Valid()
      reads this
    {
      0.0 <= W &&
      player.x == PLAYER_X && player.jumps <= MAX_JUMPS &&
      (started ==> player.y <= FloorY(H)) &&
      BarriersLaidOut(barriers, W, H) && CoinsLaidOut(coins, W, H) &&
      time % FRAME_MS == 0 && speed == SpeedAt(time)
    }

    /** The page before any run: nothing on screen, speed at its start value. */
    constructor (W: real, H: real)
      requires 0.0 <= W
      ensures Valid()
      ensures this.W == W && this.H == H
      ensures player == Player(PLAYER_X, INITIAL_PLAYER_Y, 0.0, 0)
      ensures !started && score == 0 && barriers == [] && coins == []
      ensures speed == INITIAL_SPEED && time == 0
    {
      this.W := W;
      this.H := H;
      player := Player(PLAYER_X, INITIAL_PLAYER_Y, 0.0, 0);
      barriers, coins := [], [];
      score := 0;
      speed := INITIAL_SPEED;
      time := 0;
      started := false;
    }

    /** Starts a run for `name`; a blank name is refused and nothing changes. */
    method Start(name: string) returns (accepted: bool)
      requires Valid()
      modifies this
      ensures Valid()
      ensures accepted <==> !IsBlank(name)
      ensures !accepted ==> unchanged(this)
      ensures accepted ==>
        started && score == 0 && player == Standing(H) &&
        barriers == [] && coins == [] && speed == INITIAL_SPEED && time == 0
    {
      if Trim(name) == "" {
        return false;
      }
      Reset();
      accepted := true;
    }

    /** Puts every part of the state back to where a run begins. */
    method Reset()
      requires 0.0 <= W
      modifies this
      ensures Valid()
      ensures started && score == 0 && player == Standing(H)
      ensures barriers == [] && coins == [] && speed == INITIAL_SPEED && time == 0
    {
      started := true;
      score := 0;
      player := Player(PLAYER_X, FloorY(H), 0.0, 0);
      coins := [];
      barriers := [];
      speed := INITIAL_SPEED;
      time := 0;
    }

    /** A press of the jump button. */
    method Jump()
      requires Valid()
      modifies this`player
      ensures Valid()
      ensures player == Jumped(old(player), H)
    {
      var isOnGround := player.y >= FloorY(H);
      if isOnGround || player.jumps < MAX_JUMPS {
        player := player.(velocityY := JUMP_FORCE,
                          jumps := if isOnGround then 1 else player.jumps + 1);
      }
    }

    /** Pushes a new barrier, of height drawn from `r`, at the right edge. */
    method SpawnBarrier(r: real)
      requires IsDraw(r)
      modifies this`barriers
      ensures barriers == old(barriers) + [NewBarrier(W, H, time, r)]
    {
      var difficulty := DifficultyAt(time);
      var height := BARRIER_MIN_HEIGHT + r * BARRIER_HEIGHT_RANGE * difficulty;
      var b := Barrier(W, H - FLOOR_HEIGHT - height, BarrierWidth(W), height);
      assert b == NewBarrier(W, H, time, r);
      barriers := barriers + [b];
    }

    /** Pushes a new coin, at height drawn from `r`, at the right edge. */
    method SpawnCoin(r: real)
      requires IsDraw(r)
      modifies this`coins
      ensures coins == old(coins) + [NewCoin(W, H, r)]
    {
      coins := coins + [Coin(W, H - FLOOR_HEIGHT - COIN_LIFT - r * COIN_JITTER)];
    }

    /** The end of a run, as far as the game state is concerned. */
    method EndGame()
      requires Valid()
      modifies this`started
      ensures Valid()
      ensures !started
    {
      started := false;
    }

    /** Gravity, then the floor. */
    method ApplyGravity()
      requires Valid()
      modifies this`player
      ensures Valid()
      ensures player == Fall(old(player), H)
    {
      player := player.(velocityY := player.velocityY + GRAVITY);
      player := player.(y := player.y + player.velocityY);
      if player.y > FloorY(H) {
        player := player.(y := FloorY(H), velocityY := 0.0, jumps := 0);
      }
    }

    /** Scrolls everything left by the speed, retires what left the screen,
        and then maybe spawns: a barrier on a draw below 1%, a coin on a draw
        below 5% or whenever fewer than three coins remain. */
    method ScrollAndSpawn(rBarrier: real, rHeight: real, rCoin: real, rCoinY: real)
      requires Valid()
      requires IsDraw(rBarrier) && IsDraw(rHeight) && IsDraw(rCoin) && IsDraw(rCoinY)
      modifies this`barriers, this`coins
      ensures Valid()
      ensures var moved := MoveBarriers(old(barriers), speed);
        barriers == if rBarrier < BARRIER_CHANCE
                    then moved + [NewBarrier(W, H, time, rHeight)] else moved
      ensures var moved := MoveCoins(old(coins), speed);
        coins == if rCoin < COIN_CHANCE || |moved| < MIN_COINS
                 then moved + [NewCoin(W, H, rCoinY)] else moved
    {
      MoveBarriersKeepsLayout(barriers, speed, W, H);
      MoveCoinsKeepsLayout(coins, speed, W, H);
      barriers := MoveBarriers(barriers, speed);
      coins := MoveCoins(coins, speed);
      if rBarrier < BARRIER_CHANCE {
        SpawnBarrierKeepsLayout(barriers, NewBarrier(W, H, time, rHeight), W, H);
        SpawnBarrier(rHeight);
      }
      if rCoin < COIN_CHANCE || |coins| < MIN_COINS {
        SpawnCoinKeepsLayout(coins, NewCoin(W, H, rCoinY), W, H);
        SpawnCoin(rCoinY);
      }
    }

    /** Removes the coins the player touches, one point for each. */
    method CollectTouchedCoins()
      requires Valid()
      modifies this`coins, this`score
      ensures Valid()
      ensures coins == Filter(old(coins), Untouched(player))
      ensures score == old(score) + |Filter(old(coins), Touched(player))|
    {
      FilterCoinsKeepsLayout(coins, Untouched(player), W, H);
      var kept, collected := CollectCoins(coins, player);
      coins := kept;
      score := score + collected;
    }

    /** Advances the clock by one frame and steps the speed on each interval boundary. */
    method AdvanceClock()
      requires Valid()
      modifies this`time, this`speed
      ensures Valid()
      ensures time == old(time) + FRAME_MS
      ensures speed == if SpeedsUp(time) then old(speed) + SPEED_STEP else old(speed)
      ensures time % FRAME_MS == 0 && speed == SpeedAt(time)
    {
      var next := time + FRAME_MS;
      SpeedStepExact(time);
      time := next;
      if SpeedsUp(next) {
        speed := speed + SPEED_STEP;
      }
    }

    /** The part of a frame that moves the world: gravity, scrolling and
        spawning, then coin pickup. */
    method MoveWorld(rBarrier: real, rHeight: real, rCoin: real, rCoinY: real)
      requires Valid()
      requires IsDraw(rBarrier) && IsDraw(rHeight) && IsDraw(rCoin) && IsDraw(rCoinY)
      modifies this`player, this`barriers, this`coins, this`score
      ensures Valid()
      ensures player == Fall(old(player), H)
      ensures var moved := MoveBarriers(old(barriers), speed);
        barriers == if rBarrier < BARRIER_CHANCE
                    then moved + [NewBarrier(W, H, time, rHeight)] else moved
      ensures var moved := MoveCoins(old(coins), speed);
        var offered := if rCoin < COIN_CHANCE || |moved| < MIN_COINS
                       then moved + [NewCoin(W, H, rCoinY)] else moved;
        coins == Filter(offered, Untouched(player)) &&
        score == old(score) + |Filter(offered, Touched(player))|
    {
      ApplyGravity();
      ScrollAndSpawn(rBarrier, rHeight, rCoin, rCoinY);
      CollectTouchedCoins();
    }

    /** One frame of the game loop. The four Math.random() draws the frame
        may use are passed in: the barrier chance, the barrier height, the
        coin chance and the coin height. */
    method Tick(rBarrier: real, rHeight: real, rCoin: real, rCoinY: real)
      requires Valid() && started
      requires IsDraw(rBarrier) && IsDraw(rHeight) && IsDraw(rCoin) && IsDraw(rCoinY)
      modifies this
      ensures Valid()
      ensures player == Fall(old(player), H)
      ensures var moved := MoveBarriers(old(barriers), old(speed));
        barriers == if rBarrier < BARRIER_CHANCE
                    then moved + [NewBarrier(W, H, old(time), rHeight)] else moved
      ensures var moved := MoveCoins(old(coins), old(speed));
        var offered := if rCoin < COIN_CHANCE || |moved| < MIN_COINS
                       then moved + [NewCoin(W, H, rCoinY)] else moved;
        coins == Filter(offered, Untouched(player)) &&
        score == old(score) + |Filter(offered, Touched(player))|
      ensures started <==> !CheckCollision(barriers, player)
      ensures started ==>
        time == old(time) + FRAME_MS &&
        speed == if SpeedsUp(time) then old(speed) + SPEED_STEP else old(speed)
      ensures !started ==> time == old(time) && speed == old(speed)
    {
      MoveWorld(rBarrier, rHeight, rCoin, rCoinY);
      // a barrier ends the run before the clock advances
      if CheckCollision(barriers, player) {
        EndGame();
      } else {
        AdvanceClock();
      }
    }
  }

  /** However long a run lasts, the entities on screen stay few: their number
      is bounded by the width of the strip between the retirement line and
      the spawn edge, divided by the least spacing. */
  lemma EntitiesBounded(g: Game)
    requires g.Valid()
    ensures g.barriers == [] || MIN_GAP * (|g.barriers| as real - 1.0) < g.W - BARRIER_RETIRE_X
    ensures g.coins == [] || MIN_GAP * (|g.coins| as real - 1.0) < g.W - COIN_RETIRE_X
  {
    BarrierCountBound(g.barriers, g.W, g.H);
    CoinCountBound(g.coins, g.W, g.H);
  }
}
