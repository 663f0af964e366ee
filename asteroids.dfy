/** Asteroid tiers and the passive spawn roll (main.js:511-534). */
module Asteroids {
  import opened Geometry
  import opened Entities
  import Config

  /** Milliseconds of accumulated frame time between two spawn rolls. */
  const SpawnInterval: real := 2500.0

  /** The tiers a run starts with: four small, one medium, one large. */
  const StartTiers: seq<Tier> := [Small, Small, Small, Small, Medium, Large]

  function InitialHp(t: Tier): (hp: int)
    ensures hp > 0
  {
    match t
    case Small => 2
    case Medium => 6
    case Large => 12
  }

  /** The inclusive range the random drop value of a tier is drawn from. */
  function DropLow(t: Tier): int {
    match t
    case Small => 1
    case Medium => 10
    case Large => 25
  }

  function DropHigh(t: Tier): int {
    match t
    case Small => 5
    case Medium => 20
    case Large => 36
  }

  predicate ValidDrop(t: Tier, drop: int) {
    DropLow(t) <= drop <= DropHigh(t)
  }

  /** Tiers are ordered: a larger tier has more hit points and every drop
      it can give exceeds every drop of a smaller tier. */
  predicate Smaller(a: Tier, b: Tier) {
    (a == Small && b != Small) || (a == Medium && b == Large)
  }

  lemma TiersOrdered(a: Tier, b: Tier, da: int, db: int)
    requires Smaller(a, b) && ValidDrop(a, da) && ValidDrop(b, db)
    ensures InitialHp(a) < InitialHp(b) && da < db
  {
  }

  /** A random in-arena position for a spawned asteroid: both coordinates at
      least 50 from the border. */
  predicate SpawnPosition(p: Point) {
    50.0 <= p.x <= (Config.Width - 50) as real && 50.0 <= p.y <= (Config.Height - 50) as real
  }

  /** spawnAsteroid: a fresh asteroid of tier `t` at full health. */
  function SpawnAsteroid(t: Tier, pos: Point, drop: int): (a: Asteroid)
    requires ValidDrop(t, drop)
    ensures a.tier == t && a.pos == pos && a.hp == a.initialHp == InitialHp(t)
    ensures a.hp > 0 && a.dropValue == drop && ValidDrop(t, a.dropValue) && a.dropValue > 0
  {
    Asteroid(pos, t, InitialHp(t), InitialHp(t), drop)
  }

  /** maybeSpawnAsteroid's roll `r` in [1, 100]: the tiers it spawns, in order. */
  function Roll(r: int): (ts: seq<Tier>)
    requires 1 <= r <= 100
    ensures Small in ts <==> r <= 30
    ensures Medium in ts <==> r > 90
    ensures Large in ts <==> r == 100
    ensures |ts| <= 2 && (|ts| == 2 <==> r == 100)
    ensures ts == [] <==> 30 < r <= 90
    ensures r == 100 ==> ts == [Medium, Large]
  {
    (if r <= 30 then [Small] else []) + (if r > 90 then [Medium] else []) + (if r == 100 then [Large] else [])
  }

  /** The random draws of one spawn: a position and a drop value. */
  datatype AsteroidDraw = AsteroidDraw(pos: Point, drop: int)

  predicate ValidDraws(tiers: seq<Tier>, draws: seq<AsteroidDraw>) {
    |draws| == |tiers| && forall i :: 0 <= i < |tiers| ==> ValidDrop(tiers[i], draws[i].drop) && SpawnPosition(draws[i].pos)
  }

  /** The asteroids spawned for `tiers`, one draw each, in order. */
  function SpawnAll(tiers: seq<Tier>, draws: seq<AsteroidDraw>): (spawned: seq<Asteroid>)
    requires ValidDraws(tiers, draws)
    ensures |spawned| == |tiers|
    ensures forall i :: 0 <= i < |tiers| ==> spawned[i] == SpawnAsteroid(tiers[i], draws[i].pos, draws[i].drop)
  {
    seq(|tiers|, i requires 0 <= i < |tiers| => SpawnAsteroid(tiers[i], draws[i].pos, draws[i].drop))
  }
}
