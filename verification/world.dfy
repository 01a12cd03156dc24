/** The world record of the platformer: one player, an ordered list of
    platforms and the two movement-key flags, together with the game's fixed
    constants and its initial state. Coordinates are exact reals; the canvas
    height is not part of the world and is passed to every step as `H`. */
module World {

  /** Downward acceleration added to the vertical velocity each frame. */
  const Gravity: real := 0.5
  /** The player is a 30 x 30 box. */
  const PlayerSize: real := 30.0
  /** Every platform is 20 high. */
  const PlatformHeight: real := 20.0
  /** Width a platform gets when none is given. */
  const DefaultPlatformWidth: real := 200.0
  /** Where the player starts and where it respawns. */
  const Spawn: Vec := Vec(100.0, 100.0)
  /** Velocity the player starts and respawns with. */
  const SpawnVelocity: Vec := Vec(0.0, 1.0)

  datatype Vec = Vec(x: real, y: real)

  datatype Player = Player(position: Vec, velocity: Vec, width: real, height: real, isOnGround: bool)

  datatype Platform = Platform(position: Vec, width: real, height: real)

  /** The two persistent movement flags (the jump key has no flag). */
  datatype Keys = Keys(right: bool, left: bool)

  datatype State = State(player: Player, platforms: seq<Platform>, keys: Keys)

  datatype Option<T> = None | Some(value: T)

  /** A fresh player: at the spawn point, falling slowly, not grounded. */
  function NewPlayer(): (p: Player)
    ensures p.position == Spawn && p.velocity == SpawnVelocity
    ensures p.width == PlayerSize && p.height == PlayerSize
    ensures !p.isOnGround
  {
    Player(Spawn, SpawnVelocity, PlayerSize, PlayerSize, false)
  }

  /** A platform at (x, y); an omitted width falls back to the default. */
  function NewPlatform(x: real, y: real, width: Option<real>): (p: Platform)
    ensures p.position == Vec(x, y)
    ensures p.height == PlatformHeight
    ensures width.None? ==> p.width == DefaultPlatformWidth
    ensures width.Some? ==> p.width == width.value
  {
    Platform(Vec(x, y), match width case Some(w) => w case None => DefaultPlatformWidth, PlatformHeight)
  }

  /** The nine hand-placed platforms the game starts with. */
  const Seed: seq<Platform> := [
    NewPlatform(50.0, 500.0, Some(300.0)),
    NewPlatform(500.0, 400.0, None),
    NewPlatform(800.0, 300.0, None),
    NewPlatform(1100.0, 200.0, None),
    NewPlatform(1400.0, 300.0, None),
    NewPlatform(1700.0, 400.0, None),
    NewPlatform(2000.0, 500.0, None),
    NewPlatform(2300.0, 600.0, None),
    NewPlatform(2600.0, 500.0, Some(300.0))
  ]

  /** Platforms ordered left to right by their x position. */
  predicate StrictlyIncreasingX(ps: seq<Platform>)
  {
    forall i, j :: 0 <= i < j < |ps| ==> ps[i].position.x < ps[j].position.x
  }

  function Initial(): (w: State)
    ensures w.player == NewPlayer()
    ensures w.platforms == Seed
    ensures !w.keys.right && !w.keys.left
  {
    State(NewPlayer(), Seed, Keys(false, false))
  }

  /** The seeded list has nine platforms, strictly ordered by x, each 20 high,
      each 200 wide except the first and the last, which are 300 wide. */
  lemma SeedShape()
    ensures |Seed| == 9
    ensures StrictlyIncreasingX(Seed)
    ensures forall i :: 0 <= i < |Seed| ==> Seed[i].height == PlatformHeight
    ensures forall i :: 0 < i < |Seed| - 1 ==> Seed[i].width == DefaultPlatformWidth
    ensures Seed[0].width == 300.0 && Seed[8].width == 300.0
  {
  }
}
