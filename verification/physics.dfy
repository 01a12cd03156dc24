/** The player's own per-frame step: integrate the position, then either
    accelerate under gravity or stop at the canvas bottom one frame ahead of
    crossing it, then respawn if the player has dropped below the canvas. */
module Physics {
  import opened World

  /** The respawn condition: after moving by its velocity the player's top
      edge is below the canvas bottom `H`. */
  predicate Falls(p: Player, H: real)
  {
    p.position.y + p.velocity.y > H
  }

  /** Puts the player back at the spawn point with the spawn velocity; the
      grounded flag and the size are kept. */
  function Respawn(p: Player): (r: Player)
    ensures r.position == Spawn && r.velocity == SpawnVelocity
    ensures r.(position := p.position, velocity := p.velocity) == p
  {
    p.(position := Spawn, velocity := SpawnVelocity)
  }

  /** One physics step of the player on a canvas of height `H`. */
  function Update(p: Player, H: real): (r: Player)
    ensures r.width == p.width && r.height == p.height
    ensures p.isOnGround ==> r.isOnGround
    ensures Falls(p, H) ==> r.position == Spawn && r.velocity == SpawnVelocity
    ensures Falls(p, H) ==>
      r.isOnGround == (p.isOnGround || p.position.y + p.velocity.y + p.height + p.velocity.y > H)
    ensures !Falls(p, H) ==>
      && r.position == Vec(p.position.x + p.velocity.x, p.position.y + p.velocity.y)
      && r.velocity.x == p.velocity.x
    ensures !Falls(p, H) ==>
      || (r.velocity.y == p.velocity.y + Gravity && r.isOnGround == p.isOnGround)
      || (r.velocity.y == 0.0 && r.isOnGround)
  {
    var moved := p.(position := Vec(p.position.x + p.velocity.x, p.position.y + p.velocity.y));
    var accelerated :=
      if moved.position.y + moved.height + moved.velocity.y <= H then
        moved.(velocity := moved.velocity.(y := moved.velocity.y + Gravity))
      else
        moved.(velocity := moved.velocity.(y := 0.0), isOnGround := true);
    if accelerated.position.y > H then Respawn(accelerated) else accelerated
  }

  /** Gravity is applied exactly when, after the move, the old velocity would
      still keep the bottom edge on the canvas; otherwise the player is
      stopped and flagged as grounded. */
  lemma UpdateGravityOrFloor(p: Player, H: real)
    requires !Falls(p, H)
    ensures var bottom := p.position.y + p.velocity.y + p.height;
      && (bottom + p.velocity.y <= H ==>
            Update(p, H).velocity.y == p.velocity.y + Gravity && Update(p, H).isOnGround == p.isOnGround)
      && (bottom + p.velocity.y > H ==>
            Update(p, H).velocity.y == 0.0 && Update(p, H).isOnGround)
  {
  }

  /** A player that does not meet the respawn condition, and is at least one
      gravity step tall, does not meet it after the step either: gravity is
      only added while the bottom edge stays on the canvas, and the floor
      stop leaves the player at rest. */
  lemma UpdateKeepsNotFalling(p: Player, H: real)
    requires p.height >= Gravity
    requires !Falls(p, H)
    ensures !Falls(Update(p, H), H)
    ensures Update(p, H).position.y <= H
  {
  }

  /** The canvas-bottom invariant: the next move keeps the bottom edge at
      most one gravity step below `H`. */
  predicate AboveFloor(p: Player, H: real)
  {
    p.position.y + p.velocity.y + p.height <= H + Gravity
  }

  /** Because the floor is detected one frame ahead, a player above the floor
      never falls off the canvas, its bottom edge ends at most half a unit
      below `H`, and it stays above the floor for the next step. */
  lemma UpdateKeepsAboveFloor(p: Player, H: real)
    requires p.height >= Gravity
    requires AboveFloor(p, H)
    ensures !Falls(p, H)
    ensures Update(p, H).position.y + p.height <= H + Gravity
    ensures AboveFloor(Update(p, H), H)
  {
  }

  /** A player at the spawn point falls by its velocity and speeds up by
      gravity when nothing is below it. */
  lemma SpawnFirstStep()
    ensures Update(NewPlayer(), 600.0).position == Vec(100.0, 101.0)
    ensures Update(NewPlayer(), 600.0).velocity == Vec(0.0, 1.5)
  {
  }
}
