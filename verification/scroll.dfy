/** The dead-zone camera policy: inside the band [100, 400] the player walks;
    at its edges the whole platform list scrolls the other way instead. */
module Scroll {
  import opened World

  /** Horizontal speed of walking and of scrolling. */
  const Speed: real := 5.0
  /** Left and right edge of the band the player may walk in. */
  const DeadZoneLeft: real := 100.0
  const DeadZoneRight: real := 400.0

  /** What a frame does horizontally: the player walks with velocity `vx`,
      the platforms shift by `dx`, or nothing moves. */
  datatype Motion = Walk(vx: real) | Shift(dx: real) | Stand

  /** The player's horizontal velocity a motion leaves behind. */
  function WalkVelocity(m: Motion): real
  {
    if m.Walk? then m.vx else 0.0
  }

  /** The policy, a function of the player's x and the key flags. Right
      takes precedence over left. */
  function DeadZone(x: real, keys: Keys): (m: Motion)
    ensures m.Walk? ==>
      || (m.vx == Speed && keys.right && x < DeadZoneRight)
      || (m.vx == -Speed && keys.left && x > DeadZoneLeft)
    ensures m.Shift? ==>
      || (m.dx == -Speed && keys.right && x >= DeadZoneRight)
      || (m.dx == Speed && keys.left && !keys.right && x <= DeadZoneLeft)
    ensures m.Stand? <==> !keys.right && !keys.left
  {
    if keys.right && x < DeadZoneRight then Walk(Speed)
    else if keys.left && x > DeadZoneLeft then Walk(-Speed)
    else if keys.right then Shift(-Speed)
    else if keys.left then Shift(Speed)
    else Stand
  }

  /** How far the player travels relative to the platforms under a motion:
      walking moves the player, shifting moves the platforms the other way. */
  function Relative(m: Motion): real
  {
    match m
    case Walk(vx) => vx
    case Shift(dx) => -dx
    case Stand => 0.0
  }

  /** With exactly one direction key held the player always advances by the
      speed through the level in that direction, whether it walks or the
      level scrolls; with both held right wins unless the player is already
      at the right edge, where it walks back left. */
  lemma DeadZoneAdvances(x: real, keys: Keys)
    ensures keys.right && !keys.left ==> Relative(DeadZone(x, keys)) == Speed
    ensures keys.left && !keys.right ==> Relative(DeadZone(x, keys)) == -Speed
    ensures keys.right && keys.left ==>
      Relative(DeadZone(x, keys)) == (if x < DeadZoneRight then Speed else -Speed)
  {
  }

  /** Moves one platform horizontally. */
  function ShiftPlatform(p: Platform, dx: real): (r: Platform)
    ensures r.position.x - p.position.x == dx
    ensures r.position.y == p.position.y && r.width == p.width && r.height == p.height
  {
    p.(position := p.position.(x := p.position.x + dx))
  }

  /** Moves every platform of the list, in order. */
  function ShiftAll(ps: seq<Platform>, dx: real): (r: seq<Platform>)
    ensures |r| == |ps|
    ensures forall i :: 0 <= i < |ps| ==> r[i] == ShiftPlatform(ps[i], dx)
    decreases |ps|
  {
    if ps == [] then [] else [ShiftPlatform(ps[0], dx)] + ShiftAll(ps[1..], dx)
  }

  /** A scroll is a rigid translation: only x changes, by the same amount for
      every platform, so every pairwise x-distance and the x-order survive. */
  lemma ShiftAllRigid(ps: seq<Platform>, dx: real)
    ensures forall i :: 0 <= i < |ps| ==>
      && ShiftAll(ps, dx)[i].position.y == ps[i].position.y
      && ShiftAll(ps, dx)[i].width == ps[i].width
      && ShiftAll(ps, dx)[i].height == ps[i].height
    ensures forall i, j :: 0 <= i < |ps| && 0 <= j < |ps| ==>
      ShiftAll(ps, dx)[j].position.x - ShiftAll(ps, dx)[i].position.x == ps[j].position.x - ps[i].position.x
    ensures StrictlyIncreasingX(ps) <==> StrictlyIncreasingX(ShiftAll(ps, dx))
  {
  }

  /** Two scrolls add up, and a scroll back undoes a scroll. */
  lemma ShiftAllCompose(ps: seq<Platform>, a: real, b: real)
    ensures ShiftAll(ShiftAll(ps, a), b) == ShiftAll(ps, a + b)
    ensures ShiftAll(ShiftAll(ps, a), -a) == ps
  {
  }
}
