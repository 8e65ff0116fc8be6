/** The player's vertical motion: gravity with a floor clamp once per tick, and
    the jump impulse with its limit of two jumps before landing. */
module Physics {
  import opened Entities

  const GRAVITY: real := 0.6
  const JUMP_FORCE: real := -15.0
  /** The side of the player's square used by the physics. */
  const PLAYER_SIZE: real := 50.0
  /** The player's fixed horizontal position. */
  const PLAYER_X: real := 50.0
  const MAX_JUMPS: nat := 2

  datatype Player = Player(x: real, y: real, velocityY: real, jumps: nat)

  /** The lowest the player's top edge can be: the player stands on the floor. */
  function FloorY(H: real): real
  {
    H - FLOOR_HEIGHT - PLAYER_SIZE
  }

  /** The player a run starts with: standing on the floor, at rest. */
  function Standing(H: real): Player
  {
    Player(PLAYER_X, FloorY(H), 0.0, 0)
  }

  /** Whether gravity in this tick carries the player through the floor. */
  predicate Lands(p: Player, H: real)
  {
    p.y + p.velocityY + GRAVITY > FloorY(H)
  }

  /** One tick of vertical motion: gravity accelerates the player, the player
      moves by the new velocity, and a player pushed below the floor is put back
      on it at rest with its jumps restored. */
  function Fall(p: Player, H: real): (r: Player)
    ensures r.x == p.x && r.y <= FloorY(H)
    ensures r.jumps <= p.jumps
    ensures Lands(p, H) ==> r.y == FloorY(H) && r.velocityY == 0.0 && r.jumps == 0
    ensures !Lands(p, H) ==>
      r.y == p.y + p.velocityY + GRAVITY && r.velocityY == p.velocityY + GRAVITY && r.jumps == p.jumps
  {
    var v := p.velocityY + GRAVITY;
    var y := p.y + v;
    if y > FloorY(H) then Player(p.x, FloorY(H), 0.0, 0) else p.(y := y, velocityY := v)
  }

  /** The jump button is honoured on the ground or while fewer than two jumps are used. */
  predicate OnGround(p: Player, H: real)
  {
    p.y >= FloorY(H)
  }

  predicate CanJump(p: Player, H: real)
  {
    OnGround(p, H) || p.jumps < MAX_JUMPS
  }

  /** The player after a press of the jump button. */
  function Jumped(p: Player, H: real): (r: Player)
    ensures r.x == p.x && r.y == p.y
    ensures CanJump(p, H) ==> r.velocityY == JUMP_FORCE
    ensures OnGround(p, H) ==> r.jumps == 1
    ensures !OnGround(p, H) && p.jumps < MAX_JUMPS ==> r.jumps == p.jumps + 1
    ensures !CanJump(p, H) ==> r == p
    ensures p.jumps <= MAX_JUMPS ==> r.jumps <= MAX_JUMPS
  {
    if OnGround(p, H) || p.jumps < MAX_JUMPS then
      p.(velocityY := JUMP_FORCE, jumps := if OnGround(p, H) then 1 else p.jumps + 1)
    else p
  }

  /** A player at rest on the floor stays there, whatever its jump counter said. */
  lemma RestIsStable(p: Player, H: real)
    requires p.y == FloorY(H) && p.velocityY == 0.0
    ensures Fall(p, H) == p.(jumps := 0)
  {
  }

  /** In the air, a third press in a row is ignored: two jumps before landing at most. */
  lemma ThirdAirJumpIgnored(p: Player, H: real)
    requires !OnGround(p, H)
    ensures Jumped(Jumped(Jumped(p, H), H), H) == Jumped(Jumped(p, H), H)
  {
  }

  /** The player after `n` ticks with no jump pressed. */
  function FallTicks(p: Player, H: real, n: nat): Player
  {
    if n == 0 then p else Fall(FallTicks(p, H, n - 1), H)
  }

  /** Height `n` ticks into a jump from rest on the floor, before landing. */
  function ArcY(H: real, n: nat): real
  {
    FloorY(H) - 0.3 * (n * (49 - n)) as real
  }

  /** One tick further along the arc: the height changes by the velocity of
      that tick, and never goes below the floor through tick 49. */
  lemma ArcStep(H: real, n: nat)
    requires 1 <= n <= 49
    ensures ArcY(H, n) == ArcY(H, n - 1) + (JUMP_FORCE + GRAVITY * n as real)
    ensures ArcY(H, n) <= FloorY(H)
  {
    var a := n * (49 - n);
    var b := (n - 1) * (49 - (n - 1));
    assert a == b + 50 - 2 * n;
    assert a as real == b as real + 50.0 - 2.0 * n as real;
    assert 0 <= 49 - n;
    assert a >= 0;
  }

  /** A jump from the floor stays in the air along the arc for 49 ticks, one
      unit of gravity slower each tick, with one jump used. */
  lemma {:induction false} GroundJumpArc(H: real, n: nat)
    requires n <= 49
    ensures FallTicks(Jumped(Standing(H), H), H, n) ==
              Player(PLAYER_X, ArcY(H, n), JUMP_FORCE + GRAVITY * n as real, 1)
  {
    var p0 := Jumped(Standing(H), H);
    assert p0 == Player(PLAYER_X, FloorY(H), JUMP_FORCE, 1);
    if n > 0 {
      var m := n - 1;
      GroundJumpArc(H, m);
      var q := Player(PLAYER_X, ArcY(H, m), JUMP_FORCE + GRAVITY * m as real, 1);
      assert FallTicks(p0, H, n) == Fall(q, H);
      ArcStep(H, n);
      assert q.velocityY + GRAVITY == JUMP_FORCE + GRAVITY * n as real;
      assert !Lands(q, H);
    }
  }

  /** The 50th tick of a jump from the floor lands the player back at rest. */
  lemma GroundJumpLands(H: real)
    ensures FallTicks(Jumped(Standing(H), H), H, 50) == Standing(H)
  {
    GroundJumpArc(H, 49);
  }

  /** The top of a jump from the floor is 180 pixels above it, reached on ticks 24 and 25. */
  lemma GroundJumpApex(H: real, n: nat)
    requires n <= 49
    ensures FallTicks(Jumped(Standing(H), H), H, n).y >= FloorY(H) - 180.0
    ensures n == 24 || n == 25 ==> FallTicks(Jumped(Standing(H), H), H, n).y == FloorY(H) - 180.0
  {
    GroundJumpArc(H, n);
    assert n * (49 - n) == 600 - (n - 24) * (n - 25);
    assert (n - 24) * (n - 25) >= 0;
  }
}
