/** Who an enemy chases and whom a turret shoots (main.js:355-366,
    483-509). */
module Targeting {
  import opened Common
  import opened Geometry
  import opened Entities

  datatype Target = PlayerTarget | WallTarget(index: nat)

  /** findNearestWallOrPlayer: the nearest wall, unless the player is
      strictly nearer; with no walls, the player. */
  function SeekTarget(walls: seq<Point>, e: Point, player: Point): (t: Target)
    ensures t.WallTarget? ==> t.index < |walls| && Dist2(walls[t.index], e) <= Dist2(player, e)
    ensures t.WallTarget? ==> forall j :: 0 <= j < |walls| ==> Dist2(walls[t.index], e) <= Dist2(walls[j], e)
    ensures t.WallTarget? ==> forall j :: 0 <= j < t.index ==> Dist2(walls[t.index], e) < Dist2(walls[j], e)
    ensures t.PlayerTarget? <==> forall j :: 0 <= j < |walls| ==> Dist2(player, e) < Dist2(walls[j], e)
  {
    var nearest := Nearest(walls, e, Unbounded);
    var nd := if nearest.Some? then Below(Dist2(walls[nearest.value], e)) else Unbounded;
    if Within(Dist2(player, e), nd) then PlayerTarget
    else if nearest.Some? then WallTarget(nearest.value)
    else PlayerTarget
  }

  /** The enemy chases the player whenever there are no walls, and a wall
      whenever one stands at least as close as the player. */
  lemma SeekTargetCases(walls: seq<Point>, e: Point, player: Point, i: nat)
    requires i < |walls| && Dist2(walls[i], e) <= Dist2(player, e)
    ensures SeekTarget(walls, e, player).WallTarget?
    ensures SeekTarget([], e, player) == PlayerTarget
  {
  }

  /** A turret's search radius: the scan starts at range + 1. Comparing
      squares orders distances as the scan does because range + 1 is
      positive: every turret is built by `NewTurret` with range 160. */
  function Reach(t: Turret): Bound {
    Below((t.range + 1.0) * (t.range + 1.0))
  }

  predicate CooledDown(t: Turret, time: real) {
    time - t.lastShot >= t.fireRate
  }

  /** The enemy a turret fires at this tick, if any: none while its cooldown
      runs, else the first nearest enemy within reach. */
  function TurretTarget(t: Turret, enemies: seq<Point>, time: real): (r: Option<nat>)
    ensures r.Some? ==> CooledDown(t, time) && r.value < |enemies|
    ensures r.Some? ==> Within(Dist2(enemies[r.value], t.pos), Reach(t))
    ensures r.Some? ==> forall j :: 0 <= j < |enemies| ==> Dist2(enemies[r.value], t.pos) <= Dist2(enemies[j], t.pos)
    ensures r.Some? ==> forall j :: 0 <= j < r.value ==> Dist2(enemies[r.value], t.pos) < Dist2(enemies[j], t.pos)
    ensures r.None? <==> !CooledDown(t, time) || forall j :: 0 <= j < |enemies| ==> !Within(Dist2(enemies[j], t.pos), Reach(t))
  {
    if !CooledDown(t, time) then None else Nearest(enemies, t.pos, Reach(t))
  }

  /** One turret's turn: it records the shot time when it fires. */
  function TurretAfter(t: Turret, enemies: seq<Point>, time: real): (t': Turret)
    ensures t'.pos == t.pos && t'.range == t.range && t'.fireRate == t.fireRate && t'.damage == t.damage
    ensures t'.lastShot == if TurretTarget(t, enemies, time).Some? then time else t.lastShot
  {
    if TurretTarget(t, enemies, time).Some? then t.(lastShot := time) else t
  }

  /** The bullet a turret fires in its turn, if it fires. */
  function Shot(t: Turret, enemies: seq<Point>, time: real): (bs: seq<Bullet>)
    ensures bs == [] <==> TurretTarget(t, enemies, time).None?
    ensures bs != [] ==> bs == [Bullet(t.pos, t.damage)]
  {
    if TurretTarget(t, enemies, time).Some? then [Bullet(t.pos, t.damage)] else []
  }

  /** The bullets the turrets fire in one pass, in turret order. */
  function Volley(ts: seq<Turret>, enemies: seq<Point>, time: real): (bs: seq<Bullet>)
    ensures |bs| <= |ts|
  {
    if |ts| == 0 then []
    else Volley(ts[..|ts| - 1], enemies, time) + Shot(ts[|ts| - 1], enemies, time)
  }

  /** Every bullet of a pass comes from a turret that found a target, and
      carries that turret's damage from its position. */
  lemma {:induction false} VolleyFromFiringTurrets(ts: seq<Turret>, enemies: seq<Point>, time: real, b: Bullet)
    requires b in Volley(ts, enemies, time)
    ensures exists t :: t in ts && b == Bullet(t.pos, t.damage) && TurretTarget(t, enemies, time).Some?
  {
    var last := ts[|ts| - 1];
    if b in Volley(ts[..|ts| - 1], enemies, time) {
      VolleyFromFiringTurrets(ts[..|ts| - 1], enemies, time, b);
      var t :| t in ts[..|ts| - 1] && b == Bullet(t.pos, t.damage) && TurretTarget(t, enemies, time).Some?;
      assert t in ts;
    } else {
      assert b in Shot(last, enemies, time);
      assert last in ts;
    }
  }

  /** A pass over one more turret adds exactly that turret's shot. */
  lemma VolleyStep(ts: seq<Turret>, i: nat, enemies: seq<Point>, time: real)
    requires i < |ts|
    ensures Volley(ts[..i + 1], enemies, time) == Volley(ts[..i], enemies, time) + Shot(ts[i], enemies, time)
  {
    assert ts[..i + 1][..i] == ts[..i];
  }

  /** No enemies, no shots. */
  lemma {:induction false} NoEnemiesNoVolley(ts: seq<Turret>, time: real)
    ensures Volley(ts, [], time) == []
  {
    if |ts| > 0 {
      NoEnemiesNoVolley(ts[..|ts| - 1], time);
    }
  }
}
