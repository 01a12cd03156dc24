/** Landing on platforms: the player's bottom edge crosses a platform's top
    edge during the coming move while the two overlap horizontally. */
module Collision {
  import opened World

  /** The four-part landing test of one platform. */
  predicate Hits(pl: Player, p: Platform)
  {
    && pl.position.y + pl.height <= p.position.y
    && pl.position.y + pl.height + pl.velocity.y >= p.position.y
    && pl.position.x + pl.width >= p.position.x
    && pl.position.x <= p.position.x + p.width
  }

  /** The effect of a hit: vertical velocity zero and grounded, nothing else. */
  function Land(pl: Player): (r: Player)
    ensures r.velocity.y == 0.0 && r.isOnGround
    ensures r.(velocity := pl.velocity, isOnGround := pl.isOnGround) == pl
  {
    pl.(velocity := pl.velocity.(y := 0.0), isOnGround := true)
  }

  /** The collision loop: every platform is tested in list order against the
      player as the previous tests left it. The result is the player landed
      if any platform is hit by the player as it entered the loop, and the
      player untouched otherwise. */
  function CollideAll(pl: Player, ps: seq<Platform>): (r: Player)
    ensures (exists i :: 0 <= i < |ps| && Hits(pl, ps[i])) ==> r == Land(pl)
    ensures (forall i :: 0 <= i < |ps| ==> !Hits(pl, ps[i])) ==> r == pl
    decreases |ps|
  {
    if ps == [] then pl
    else
      var next := if Hits(pl, ps[0]) then Land(pl) else pl;
      assert forall i :: 0 < i < |ps| ==> ps[i] == ps[1..][i - 1];
      CollideAll(next, ps[1..])
  }

  /** Landing twice is landing once. */
  lemma LandIdempotent(pl: Player)
    ensures Land(Land(pl)) == Land(pl)
  {
  }

  /** A hit among the platforms of `ps` is a hit among those of any list
      holding all of them. */
  lemma HitCarriesOver(pl: Player, ps: seq<Platform>, qs: seq<Platform>)
    requires forall p :: p in ps ==> p in qs
    ensures (exists i :: 0 <= i < |ps| && Hits(pl, ps[i])) ==> exists j :: 0 <= j < |qs| && Hits(pl, qs[j])
  {
    if exists i :: 0 <= i < |ps| && Hits(pl, ps[i]) {
      var i :| 0 <= i < |ps| && Hits(pl, ps[i]);
      assert ps[i] in qs;
      var j :| 0 <= j < |qs| && qs[j] == ps[i];
      assert Hits(pl, qs[j]);
    }
  }

  /** Several hits give the same result as one, and the order and
      multiplicity of the platforms do not matter: only which platforms are
      present decides the outcome. */
  lemma CollideOrderFree(pl: Player, ps: seq<Platform>, qs: seq<Platform>)
    requires forall p :: p in ps <==> p in qs
    ensures CollideAll(pl, ps) == CollideAll(pl, qs)
  {
    HitCarriesOver(pl, ps, qs);
    HitCarriesOver(pl, qs, ps);
  }

  /** A player whose bottom edge is 500 and falls at 2 per frame lands on a
      platform whose top edge is 500 and that spans it horizontally. */
  lemma LandingScenario()
    ensures var pl := Player(Vec(100.0, 470.0), Vec(0.0, 2.0), PlayerSize, PlayerSize, false);
      var r := CollideAll(pl, [NewPlatform(50.0, 500.0, None)]);
      r.velocity.y == 0.0 && r.isOnGround && r.position == pl.position
  {
    var pl := Player(Vec(100.0, 470.0), Vec(0.0, 2.0), PlayerSize, PlayerSize, false);
    assert Hits(pl, [NewPlatform(50.0, 500.0, None)][0]);
  }
}
