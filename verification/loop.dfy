/** One animation frame without the drawing: player physics, the grounded
    flag cleared, the dead-zone policy, then the collision loop. */
module Loop {
  import opened World
  import opened Physics
  import opened Scroll
  import opened Collision

  /** The platforms after the frame's horizontal motion. */
  function Scrolled(ps: seq<Platform>, m: Motion): seq<Platform>
  {
    if m.Shift? then ShiftAll(ps, m.dx) else ps
  }

  /** One frame on a canvas of height `H`. */
  function Frame(w: State, H: real): (r: State)
    ensures r.keys == w.keys
    ensures |r.platforms| == |w.platforms|
    ensures r.player.position == Update(w.player, H).position
    ensures r.player.isOnGround <==>
      exists i :: 0 <= i < |r.platforms| && Hits(Update(w.player, H), r.platforms[i])
    ensures r.player.isOnGround ==> r.player.velocity.y == 0.0
    ensures !r.player.isOnGround ==> r.player.velocity.y == Update(w.player, H).velocity.y
  {
    var updated := Update(w.player, H);
    var settled := updated.(isOnGround := false);
    var motion := DeadZone(settled.position.x, w.keys);
    var steered := settled.(velocity := settled.velocity.(x := WalkVelocity(motion)));
    var platforms := Scrolled(w.platforms, motion);
    assert forall p :: Hits(steered, p) == Hits(updated, p);
    State(CollideAll(steered, platforms), platforms, w.keys)
  }

  /** The dead-zone outcome of a frame, measured at the player's position
      after its physics step: exactly one of walking right, walking left, or
      standing still while every platform shifts against the held key (or
      stays put when no key is held). */
  lemma FrameDeadZone(w: State, H: real)
    ensures var r := Frame(w, H); var x := r.player.position.x; var vx := r.player.velocity.x;
      && (w.keys.right && x < DeadZoneRight ==> vx == Speed && r.platforms == w.platforms)
      && (!(w.keys.right && x < DeadZoneRight) && w.keys.left && x > DeadZoneLeft ==>
            vx == -Speed && r.platforms == w.platforms)
      && (!(w.keys.right && x < DeadZoneRight) && !(w.keys.left && x > DeadZoneLeft) ==>
            && vx == 0.0
            && forall i :: 0 <= i < |w.platforms| ==>
                 r.platforms[i] == ShiftPlatform(w.platforms[i],
                   if w.keys.right then -Speed else if w.keys.left then Speed else 0.0))
  {
  }

  /** A frame moves platforms only horizontally, all by the same amount, and
      keeps their count, order, heights and widths. */
  lemma FramePlatformsRigid(w: State, H: real)
    ensures var r := Frame(w, H);
      exists dx :: dx in {-Speed, 0.0, Speed} && r.platforms == ShiftAll(w.platforms, dx)
  {
    var r := Frame(w, H);
    var m := DeadZone(Update(w.player, H).position.x, w.keys);
    if m.Shift? {
      assert r.platforms == ShiftAll(w.platforms, m.dx);
    } else {
      ShiftAllCompose(w.platforms, 0.0, 0.0);
      var z := ShiftAll(w.platforms, 0.0);
      assert forall i :: 0 <= i < |z| ==> z[i] == w.platforms[i];
      assert r.platforms == ShiftAll(w.platforms, 0.0);
    }
  }
}
