# Platformer frame simulation in Dafny

A model of the per-frame simulation of a small canvas platformer
(`game.js`), with all drawing removed. The world is an immutable record:
one player (position, velocity, a 30 x 30 size, the `isOnGround` flag), the
ordered list of platforms (position, width, height 20) and the two movement
flags. The game loop becomes a pure function `Loop.Frame(world, H)` of the
world and the canvas height `H`; the keyboard handlers become pure
transitions `Input.KeyDown` / `Input.KeyUp`; a session is any interleaving of
frames and key events (`Session.Run`). All numbers are exact `real`s: every
constant of the game (gravity 0.5, speed 5, jump 10, dead zone [100, 400])
is a multiple of 0.5.

Modules follow the pieces of one frame:

- `World` — constants, datatypes, the player and platform constructors, the
  nine seeded platforms and the initial world.
- `Physics` — `Player.update` and `respawn`: move by the velocity, then add
  gravity or stop one frame ahead of the canvas bottom, then respawn if the
  player dropped below the canvas.
- `Scroll` — the dead-zone policy as a function of the player's x and the
  key flags, and the rigid shift of the platform list.
- `Collision` — the four-part landing test and the sequential collision loop.
- `Input` — the A / D / W key handlers.
- `Loop` — one frame: physics, clearing `isOnGround`, the dead-zone policy,
  then collisions.
- `Session` — runs of events from the initial world and the invariants every
  reachable world keeps.

Results worth noting:

- The collision loop tests platforms in order against the player as earlier
  tests left it, so after a hit later tests see a vertical velocity of 0. It
  is proved that this makes no difference: the frame ends grounded exactly
  when some platform is hit by the player as it entered the loop, and order
  or repetition of platforms does not matter.
- In every reachable world the player is grounded only at rest (vertical
  velocity 0). So the jump, which the code writes as a relative
  `velocity.y -= 10`, always leaves the velocity at exactly -10.
- The player's x stays on the grid 100, 105, ..., 400, so it never leaves the
  dead zone; the nine platforms stay a rigid translate of the seed.
- Because the floor is detected one frame ahead (the test uses the position
  after the move plus the velocity before gravity), on a canvas at least 101
  high the canvas bottom acts as a floor and the "falls off the screen"
  respawn never fires in any reachable world. The bound is exact: on a
  shorter canvas the first frame respawns the player. On a canvas at least
  130.5 high the player's bottom edge also never sinks more than half a unit
  below the canvas bottom.

`game.js` has no score, no game-over state, no restart, and no platform
generation or pruning, so the model has none either; a fall off the canvas
respawns the player at once. The jump subtracts the impulse from the
vertical velocity rather than assigning it; on reachable worlds this always
gives exactly -10, as proved in `Session.ReachablePlayer`.

## Model

| member | source | states |
|---|---|---|
| World.NewPlayer | game.js:8-17 | a new player is at (100,100) with velocity (0,1), 30 x 30, not grounded |
| World.NewPlatform | game.js:48-53 | a platform is 20 high; an omitted width defaults to 200, a given one is kept |
| World.Initial | game.js:61-77 | the game starts with a new player, the seeded platforms and both movement flags clear |
| World.SeedShape | game.js:62-72 | the seed has 9 platforms in strictly increasing x, all 20 high, 200 wide except the first and last (300) |
| Physics.Respawn | game.js:42-45 | respawn sets position (100,100) and velocity (0,1) and changes nothing else, not even the grounded flag |
| Physics.Update | game.js:24-40 | size kept, grounded never cleared; a player whose move takes its top below H respawns, keeping the grounded flag the floor test left (set if the moved bottom plus the old vy is below H); otherwise it moves by exactly its velocity, keeps its vx, and either gains 0.5 of vertical velocity or stops and is grounded |
| Physics.UpdateGravityOrFloor | game.js:29-34 | gravity is added exactly when the moved bottom edge plus the old vertical velocity is within H; otherwise vy becomes 0 and the player is grounded |
| Physics.UpdateKeepsNotFalling | game.js:26-39 | a player at least 0.5 tall that does not meet the respawn condition does not meet it after the step either, and its top edge is on the canvas |
| Physics.UpdateKeepsAboveFloor | game.js:26-34 | one-frame-ahead floor: if the next move keeps the bottom within H + 0.5, the player does not fall off, ends with its bottom within H + 0.5, and the same holds for the following move |
| Physics.SpawnFirstStep | game.js:24-34 | from the spawn state on a 600-high canvas with nothing below, one step gives y = 101 and vy = 1.5 |
| Scroll.DeadZone | game.js:87-99 | walking right only with right held and x < 400, walking left only with left held and x > 100, scrolling left only at x >= 400 with right held, scrolling right only at x <= 100 with only left held; nothing moves exactly when no key is held |
| Scroll.DeadZoneAdvances | game.js:87-98 | with exactly one direction key held the player advances 5 through the level in that direction every frame, walking or scrolled; with both held it goes right below x = 400 and left from there |
| Scroll.ShiftPlatform | game.js:95-97 | a shifted platform moves by dx in x and keeps its y, width and height |
| Scroll.ShiftAll | game.js:94-98 | scrolling keeps the list length and shifts every platform, in order, by the same dx |
| Scroll.ShiftAllRigid | game.js:94-98 | a scroll keeps every y, width and height and every pairwise x-difference, so the list is x-ordered after iff before |
| Scroll.ShiftAllCompose | game.js:95-97 | two scrolls add up, and scrolling back by the same amount restores the list |
| Collision.Land | game.js:109-110 | a hit sets vy to 0 and grounds the player and changes nothing else |
| Collision.LandIdempotent | game.js:109-110 | landing twice is the same as landing once |
| Collision.CollideAll | game.js:102-112 | the in-order collision loop lands the player iff some platform passes the four-part test against the player as it entered the loop, and otherwise leaves it untouched |
| Collision.HitCarriesOver | game.js:103-108 | a platform that passes the landing test in one list passes it in any list containing it |
| Collision.CollideOrderFree | game.js:102-112 | the collision outcome depends only on which platforms are present, not on their order or repetition |
| Collision.LandingScenario | game.js:103-111 | a player with bottom at 500 falling at 2 over a platform at y 500 lands: vy 0, grounded, position unchanged |
| Input.Jump | game.js:127-131 | a jump lowers vy by exactly 10 (relative, not assigned), clears the grounded flag and changes nothing else |
| Input.KeyDown | game.js:117-134 | A sets the left flag, D sets the right flag, W jumps only when grounded, any other key changes nothing; platforms are never touched |
| Input.KeyUp | game.js:136-146 | A clears the left flag, D clears the right flag, any other key changes nothing; the player and platforms are never touched |
| Input.KeysIdempotent | game.js:117-146 | pressing or releasing a key twice has the effect of doing it once |
| Input.PressThenRelease | game.js:117-146 | pressing and then releasing A or D is the same as releasing it alone |
| Input.JumpOnlyFromGround | game.js:127-132 | W does nothing while airborne; from the ground it lowers vy by 10 and leaves the ground |
| Loop.Frame | game.js:79-113 | a frame keeps the key flags and the platform count, leaves the player where the physics step put it, ends grounded iff some platform (after the scroll) is hit by the stepped player, and grounded implies vy = 0 while not grounded keeps the stepped vy; the floor stop of the step never survives |
| Loop.FrameDeadZone | game.js:87-99 | exactly one outcome per frame: vx = 5 (right held, x < 400), else vx = -5 (left held, x > 100), else vx = 0 with every platform shifted by -5, +5 or 0 for right, left or no key |
| Loop.FramePlatformsRigid | game.js:94-98 | a frame translates the whole platform list by one of -5, 0, +5 |
| Session.InitialInvariant | game.js:61-77 | the initial world satisfies the session invariant |
| Session.ShiftKeepsSeedTranslated | game.js:94-98 | a scroll of a translate of the seed is again a translate of the seed |
| Session.UpdateKeepsColumn | game.js:24-40 | a player on the grid 100 + 5k (0 <= k <= 60) whose vx agrees with the dead zone stays on the grid after a physics step |
| Session.FrameKeepsInvariant | game.js:79-113 | a frame preserves the session invariant: size, grid position, dead-zone-consistent vx, grounded only at rest, platforms a translate of the seed |
| Session.ApplyKeepsInvariant | game.js:79-146 | frames and key events each preserve the session invariant |
| Session.RunKeepsInvariant | game.js:79-146 | any interleaving of frames and key events preserves the session invariant |
| Session.ReachableInvariant | game.js:61-146 | every world reachable from the initial one satisfies the session invariant |
| Session.ReachablePlatforms | game.js:62-98 | in every reachable world there are 9 platforms, strictly x-ordered, with their seeded y, width and height |
| Session.ReachablePlayer | game.js:83-131 | in every reachable world the player's x is within [100, 400], and a jump from the ground leaves vy exactly -10 |
| Session.RunNeverFalls | game.js:24-40 | from a world with a 30-high player that does not meet the respawn condition, no run of frames and key events ever meets it |
| Session.RespawnsOnShortCanvas | game.js:36-39 | on a canvas shorter than 101 the initial player meets the respawn condition and the first frame puts it back at (100,100) |
| Session.RunStaysAboveFloor | game.js:24-40 | from a world above the floor, every run stays above the floor and never meets the respawn condition |
| Session.TallCanvasAboveFloor | game.js:26-34 | on a canvas at least 130.5 high the next move never takes the player's bottom more than 0.5 below the canvas bottom in any reachable world |
| Session.NeverRespawns | game.js:36-39 | on a canvas at least 101 high the respawn branch never fires in any reachable world (101 is exact, see RespawnsOnShortCanvas) |

## Left out

- Canvas and context setup, `draw()` methods, `clearRect` and `fillRect` (game.js:1-5, 19-22, 55-58, 81, 85): rendering only. The canvas height is the parameter `H`; the canvas width is never read by the simulation.
- `requestAnimationFrame` and `addEventListener` (game.js:80, 115, 117, 136): scheduling and event plumbing. The loop is repeated application of `Loop.Frame`, and key events are separate transitions interleaved between frames (`Session.Run`).
- IEEE-754 rounding of JavaScript numbers: all values are exact reals. Every constant is a multiple of 0.5, and with values that stay small the doubles are exact too, but the model does not prove that bound.
- Score, a game-over state, a restart control, and platform generation and pruning: none of them exist in `game.js`, so none is modelled.
