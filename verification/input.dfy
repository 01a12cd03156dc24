/** The keyboard handlers as pure transitions on the world: A and D set and
    clear the movement flags, W jumps while the player is grounded. */
module Input {
  import opened World

  const KeyA: int := 65
  const KeyD: int := 68
  const KeyW: int := 87
  /** Velocity taken off the vertical velocity by a jump. */
  const JumpImpulse: real := 10.0

  /** A jump: the upward impulse is subtracted from the current vertical
      velocity and the player leaves the ground. */
  function Jump(p: Player): (r: Player)
    ensures r.velocity.y + JumpImpulse == p.velocity.y
    ensures !r.isOnGround
    ensures r.(velocity := p.velocity, isOnGround := p.isOnGround) == p
  {
    p.(velocity := p.velocity.(y := p.velocity.y - JumpImpulse), isOnGround := false)
  }

  /** Key press with key code `code`. */
  function KeyDown(w: State, code: int): (r: State)
    ensures r.platforms == w.platforms
    ensures code == KeyA ==> r == w.(keys := w.keys.(left := true))
    ensures code == KeyD ==> r == w.(keys := w.keys.(right := true))
    ensures code == KeyW ==> r.keys == w.keys && r.player == (if w.player.isOnGround then Jump(w.player) else w.player)
    ensures code !in {KeyA, KeyD, KeyW} ==> r == w
  {
    if code == KeyA then w.(keys := w.keys.(left := true))
    else if code == KeyD then w.(keys := w.keys.(right := true))
    else if code == KeyW then
      if w.player.isOnGround then w.(player := Jump(w.player)) else w
    else w
  }

  /** Key release with key code `code`. */
  function KeyUp(w: State, code: int): (r: State)
    ensures r.player == w.player && r.platforms == w.platforms
    ensures code == KeyA ==> r.keys == w.keys.(left := false)
    ensures code == KeyD ==> r.keys == w.keys.(right := false)
    ensures code != KeyA && code != KeyD ==> r == w
  {
    if code == KeyA then w.(keys := w.keys.(left := false))
    else if code == KeyD then w.(keys := w.keys.(right := false))
    else w
  }

  /** Pressing a key twice is pressing it once: a held A or D only sets its
      flag again, and a second W finds the player already airborne. The same
      holds for releases. */
  lemma KeysIdempotent(w: State, code: int)
    ensures KeyDown(KeyDown(w, code), code) == KeyDown(w, code)
    ensures KeyUp(KeyUp(w, code), code) == KeyUp(w, code)
  {
  }

  /** A press followed by the release of the same key leaves the flags as a
      release alone would, and does not touch the player. */
  lemma PressThenRelease(w: State, code: int)
    requires code != KeyW
    ensures KeyUp(KeyDown(w, code), code) == KeyUp(w, code)
  {
  }

  /** Jumping is possible only from the ground: when airborne W changes
      nothing, and after a jump a second W changes nothing either. */
  lemma JumpOnlyFromGround(w: State)
    ensures !w.player.isOnGround ==> KeyDown(w, KeyW) == w
    ensures w.player.isOnGround ==> KeyDown(w, KeyW).player.velocity.y == w.player.velocity.y - JumpImpulse
    ensures w.player.isOnGround ==> !KeyDown(w, KeyW).player.isOnGround
  {
  }
}
