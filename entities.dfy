/** The game objects the rules read and change. Each is a value; the
    session keeps them in sequences, one per Phaser group. */
module Entities {
  import opened Geometry

  /** A spawned enemy: hit points, contact damage, move speed and the gem
      value it drops. */
  datatype Enemy = Enemy(pos: Point, hp: int, damage: int, speed: real, value: int)

  datatype Tier = Small | Medium | Large

  datatype Asteroid = Asteroid(pos: Point, tier: Tier, initialHp: int, hp: int, dropValue: int)

  datatype Wall = Wall(pos: Point, hp: int)

  /** Range and fire interval (ms), bullet damage and the time of its last shot. */
  datatype Turret = Turret(pos: Point, range: real, fireRate: real, damage: int, lastShot: real)

  datatype Bullet = Bullet(origin: Point, damage: int)

  /** A dropped gem waiting to be picked up. */
  datatype GemDrop = GemDrop(pos: Point, value: int)

  /** JavaScript's `v || d` on a number that is never NaN: `d` when `v` is 0. */
  function OrDefault(v: int, d: int): (r: int)
    ensures v != 0 ==> r == v
    ensures v == 0 ==> r == d
  {
    if v == 0 then d else v
  }

  function WallPoints(ws: seq<Wall>): (ps: seq<Point>)
    ensures |ps| == |ws| && forall i :: 0 <= i < |ws| ==> ps[i] == ws[i].pos
  {
    seq(|ws|, i requires 0 <= i < |ws| => ws[i].pos)
  }

  function EnemyPoints(es: seq<Enemy>): (ps: seq<Point>)
    ensures |ps| == |es| && forall i :: 0 <= i < |es| ==> ps[i] == es[i].pos
  {
    seq(|es|, i requires 0 <= i < |es| => es[i].pos)
  }
}
