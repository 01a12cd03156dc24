/** A play session: frames and key events interleaved, starting from the
    initial world, and the invariants every reachable world keeps. */
module Session {
  import opened World
  import opened Physics
  import opened Scroll
  import opened Collision
  import opened Input
  import opened Loop

  /** Something that happens between two worlds: a frame, a key press or a
      key release. */
  datatype Event = Tick | Press(code: int) | Release(code: int)

  function Apply(w: State, e: Event, H: real): State
  {
    match e
    case Tick => Frame(w, H)
    case Press(code) => KeyDown(w, code)
    case Release(code) => KeyUp(w, code)
  }

  /** The world after a sequence of events, in order. */
  function Run(w: State, events: seq<Event>, H: real): State
    decreases |events|
  {
    if events == [] then w else Run(Apply(w, events[0], H), events[1..], H)
  }

  /** The x positions the player can occupy: 100, 105, ..., 400. */
  function Column(k: int): real
  {
    DeadZoneLeft + Speed * k as real
  }

  predicate OnColumn(x: real)
  {
    exists k :: 0 <= k <= 60 && x == Column(k)
  }

  /** The stored horizontal velocity agrees with the dead-zone policy that
      chose it at the player's current x. */
  predicate Steady(p: Player)
  {
    || p.velocity.x == 0.0
    || (p.velocity.x == Speed && p.position.x < DeadZoneRight)
    || (p.velocity.x == -Speed && p.position.x > DeadZoneLeft)
  }

  /** The platform list is the seeded list translated as a whole. */
  predicate SeedTranslated(ps: seq<Platform>)
  {
    && |ps| == |Seed|
    && forall i :: 0 <= i < |ps| ==> ps[i] == ShiftPlatform(Seed[i], ps[0].position.x - Seed[0].position.x)
  }

  /** What every reachable world satisfies, whatever the canvas height. */
  predicate Invariant(w: State)
  {
    && w.player.width == PlayerSize && w.player.height == PlayerSize
    && OnColumn(w.player.position.x)
    && Steady(w.player)
    && (w.player.isOnGround ==> w.player.velocity.y == 0.0)
    && SeedTranslated(w.platforms)
  }

  lemma InitialInvariant()
    ensures Invariant(Initial())
  {
    assert Initial().player.position.x == Column(0);
    forall i | 0 <= i < |Seed| ensures Seed[i] == ShiftPlatform(Seed[i], 0.0) { }
  }

  /** Every platform list that is the seed translated stays so under a scroll. */
  lemma ShiftKeepsSeedTranslated(ps: seq<Platform>, dx: real)
    requires SeedTranslated(ps)
    ensures SeedTranslated(ShiftAll(ps, dx))
  {
  }

  /** The physics step moves the player by a whole column or respawns it at
      column 0. */
  lemma UpdateKeepsColumn(p: Player, H: real)
    requires OnColumn(p.position.x) && Steady(p)
    ensures OnColumn(Update(p, H).position.x)
  {
    var k :| 0 <= k <= 60 && p.position.x == Column(k);
    if Falls(p, H) {
      assert Update(p, H).position.x == Column(0);
    } else if p.velocity.x == Speed && p.position.x < DeadZoneRight {
      assert Update(p, H).position.x == Column(k + 1);
    } else if p.velocity.x == -Speed && p.position.x > DeadZoneLeft {
      assert Update(p, H).position.x == Column(k - 1);
    } else {
      assert Update(p, H).position.x == Column(k);
    }
  }

  lemma FrameKeepsInvariant(w: State, H: real)
    requires Invariant(w)
    ensures Invariant(Frame(w, H))
  {
    var r := Frame(w, H);
    UpdateKeepsColumn(w.player, H);
    var m := DeadZone(Update(w.player, H).position.x, w.keys);
    assert r.player.velocity.x == WalkVelocity(m);
    if m.Shift? {
      ShiftKeepsSeedTranslated(w.platforms, m.dx);
    }
  }

  lemma ApplyKeepsInvariant(w: State, e: Event, H: real)
    requires Invariant(w)
    ensures Invariant(Apply(w, e, H))
  {
    if e.Tick? {
      FrameKeepsInvariant(w, H);
    }
  }

  lemma {:induction false} RunKeepsInvariant(w: State, events: seq<Event>, H: real)
    requires Invariant(w)
    ensures Invariant(Run(w, events, H))
    decreases |events|
  {
    if events != [] {
      ApplyKeepsInvariant(w, events[0], H);
      RunKeepsInvariant(Apply(w, events[0], H), events[1..], H);
    }
  }

  lemma ReachableInvariant(events: seq<Event>, H: real)
    ensures Invariant(Run(Initial(), events, H))
  {
    InitialInvariant();
    RunKeepsInvariant(Initial(), events, H);
  }

  /** In every world reachable from the start there are still exactly nine
      platforms, strictly ordered by x, each at its seeded height and width. */
  lemma ReachablePlatforms(events: seq<Event>, H: real)
    ensures |Run(Initial(), events, H).platforms| == 9
    ensures StrictlyIncreasingX(Run(Initial(), events, H).platforms)
    ensures forall i :: 0 <= i < 9 ==>
      var p := Run(Initial(), events, H).platforms[i];
      p.position.y == Seed[i].position.y && p.width == Seed[i].width && p.height == PlatformHeight
  {
    ReachableInvariant(events, H);
    SeedShape();
    var ps := Run(Initial(), events, H).platforms;
    var d := ps[0].position.x - Seed[0].position.x;
    forall i, j | 0 <= i < j < |ps| ensures ps[i].position.x < ps[j].position.x {
      assert ps[i] == ShiftPlatform(Seed[i], d);
      assert ps[j] == ShiftPlatform(Seed[j], d);
    }
  }

  /** In every world reachable from the start the player stays inside the
      dead zone [100, 400], and a jump sets the vertical velocity to exactly
      minus the impulse, since the player is only ever grounded at rest. */
  lemma ReachablePlayer(events: seq<Event>, H: real)
    ensures DeadZoneLeft <= Run(Initial(), events, H).player.position.x <= DeadZoneRight
    ensures var w := Run(Initial(), events, H);
      w.player.isOnGround ==> KeyDown(w, KeyW).player.velocity.y == -JumpImpulse
  {
    ReachableInvariant(events, H);
    var w := Run(Initial(), events, H);
    var k :| 0 <= k <= 60 && w.player.position.x == Column(k);
  }

  /** From a world that does not meet the respawn condition, no sequence of
      events ever reaches one that does. */
  lemma {:induction false} RunNeverFalls(w: State, events: seq<Event>, H: real)
    requires w.player.height == PlayerSize
    requires !Falls(w.player, H)
    ensures !Falls(Run(w, events, H).player, H)
    ensures Run(w, events, H).player.height == PlayerSize
    decreases |events|
  {
    if events != [] {
      var e := events[0];
      if e.Tick? {
        UpdateKeepsNotFalling(w.player, H);
      }
      RunNeverFalls(Apply(w, e, H), events[1..], H);
    }
  }

  /** On a canvas at least 101 high the respawn branch never fires in any
      reachable world: the canvas bottom acts as a floor. */
  lemma NeverRespawns(events: seq<Event>, H: real)
    requires H >= 101.0
    ensures !Falls(Run(Initial(), events, H).player, H)
  {
    RunNeverFalls(Initial(), events, H);
  }

  /** The bound 101 is exact: on a shorter canvas the very first frame
      respawns the player. */
  lemma RespawnsOnShortCanvas(H: real)
    requires H < 101.0
    ensures Falls(Initial().player, H)
    ensures Frame(Initial(), H).player.position == Spawn
  {
  }

  /** From a world whose next move keeps the bottom edge within half a unit
      of the canvas bottom, every run stays so and never meets the respawn
      condition. */
  lemma {:induction false} RunStaysAboveFloor(w: State, events: seq<Event>, H: real)
    requires w.player.height == PlayerSize
    requires AboveFloor(w.player, H)
    ensures AboveFloor(Run(w, events, H).player, H)
    ensures !Falls(Run(w, events, H).player, H)
    ensures Run(w, events, H).player.height == PlayerSize
    decreases |events|
  {
    if events == [] {
      UpdateKeepsAboveFloor(w.player, H);
    } else {
      var e := events[0];
      if e.Tick? {
        UpdateKeepsAboveFloor(w.player, H);
      }
      RunStaysAboveFloor(Apply(w, e, H), events[1..], H);
    }
  }

  /** On a canvas at least 130.5 high the bottom edge of the player is, in
      every reachable world, at most half a unit below the canvas bottom once
      the next move is made. */
  lemma TallCanvasAboveFloor(events: seq<Event>, H: real)
    requires H >= 130.5
    ensures AboveFloor(Run(Initial(), events, H).player, H)
  {
    RunStaysAboveFloor(Initial(), events, H);
  }
}
