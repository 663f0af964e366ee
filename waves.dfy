/** Wave escalation: the interval between waves, the enemy count, the
    upgrade of even waves, enemy stats and edge spawn points
    (main.js:266-353). */
module Waves {
  import opened Common
  import opened Geometry
  import opened Entities
  import Config

  // ---------- Scheduling ----------

  /** The [min, max] interval, in seconds, the next wave is drawn from. */
  datatype Interval = Interval(lo: nat, hi: nat)

  /** The bounds as the configuration describes them: the short pair when
      its debug switch is on. */
  function WaveBounds(debugShortWaves: bool): (b: Interval)
    ensures b.lo <= b.hi
    ensures debugShortWaves ==> b == Interval(15, 30)
    ensures !debugShortWaves ==> b == Interval(300, 600)
  {
    if debugShortWaves then Interval(Config.DebugMinSec, Config.DebugMaxSec)
    else Interval(Config.WaveMinSec, Config.WaveMaxSec)
  }

  /** The bounds as scheduleNextWave computes them: it consults a flag of
      the scene object that nothing ever sets, so the configuration's
      switch never takes effect. */
  function WaveBoundsAsWritten(debugShortWaves: bool): (b: Interval)
    ensures b == Interval(Config.WaveMinSec, Config.WaveMaxSec)
  {
    var sceneFlag := false;
    if sceneFlag then Interval(Config.DebugMinSec, Config.DebugMaxSec)
    else Interval(Config.WaveMinSec, Config.WaveMaxSec)
  }

  /** Switching the configuration's debug flag on changes nothing in the
      code as written, while the configuration means 15-30 s waves. */
  lemma DebugSwitchIgnored()
    ensures WaveBoundsAsWritten(true) != WaveBounds(true)
    ensures WaveBoundsAsWritten(true).lo == 300 && WaveBounds(true).hi == 30
  {
  }

  /** The absolute time (ms) of the next wave, for a drawn whole number of
      seconds `sec` within the bounds. */
  function NextWaveAt(now: real, sec: int, b: Interval): (at: real)
    requires b.lo <= sec <= b.hi
    ensures now + (b.lo * 1000) as real <= at <= now + (b.hi * 1000) as real
  {
    now + (sec * 1000) as real
  }

  // ---------- Enemy count and upgrades ----------

  /** baseCount of wave `w`. */
  function EnemyCount(w: nat, diff: Config.Difficulty): (n: nat)
    ensures n >= 3
  {
    var m := Config.MultipliersOf(diff);
    var f := (4.0 + (w as real * 1.25) * m.spawn).Floor;
    if f > 3 then f else 3
  }

  /** Waves escalate: every wave has strictly more enemies than the one
      before, since 1.25 times any spawn multiplier is at least 1. */
  lemma EnemyCountGrows(w: nat, diff: Config.Difficulty)
    ensures EnemyCount(w + 1, diff) > EnemyCount(w, diff)
  {
  }

  /** With medium difficulty wave w has floor(4 + 1.25 w) enemies. */
  lemma MediumEnemyCounts()
    ensures EnemyCount(1, Config.Medium) == 5 && EnemyCount(2, Config.Medium) == 6
    ensures EnemyCount(4, Config.Medium) == 9 && EnemyCount(10, Config.Medium) == 16
  {
  }

  datatype Upgrade = Speed | Health | FireRate | Armor | NewType

  const UpgradeChoices: seq<Upgrade> := [Speed, Health, FireRate, Armor, NewType]

  /** The global upgrade of wave `w`, given the random index `pick` in [0, 4]. */
  function WaveUpgrade(w: nat, pick: nat): (u: Option<Upgrade>)
    requires pick < |UpgradeChoices|
    ensures u.Some? <==> w % 2 == 0
    ensures u.Some? ==> u.value in UpgradeChoices
  {
    if w % 2 == 0 then Some(UpgradeChoices[pick]) else None
  }

  /** Every upgrade can be picked. */
  lemma {:induction false} EveryUpgradeReachable(w: nat, u: Upgrade)
    requires w % 2 == 0
    ensures exists pick :: 0 <= pick < |UpgradeChoices| && WaveUpgrade(w, pick) == Some(u)
  {
    var pick := match u
      case Speed => 0
      case Health => 1
      case FireRate => 2
      case Armor => 3
      case NewType => 4;
    assert WaveUpgrade(w, pick) == Some(u);
  }

  /** spawnEnemy's stat formulae. */
  function SpawnEnemy(pos: Point, u: Option<Upgrade>, diff: Config.Difficulty): (e: Enemy)
    ensures e.pos == pos && e.hp > 0 && e.damage > 0 && e.value > 0 && e.speed > 0.0
  {
    var m := Config.MultipliersOf(diff);
    Enemy(pos,
          Config.Round(40.0 * m.hp * (if u == Some(Health) then 1.25 else 1.0)),
          Config.Round(12.0 * m.dmg * (if u == Some(FireRate) then 1.0 else 1.0)),
          40.0 * (if u == Some(Speed) then 1.3 else 1.0),
          Config.Round(12.0 * m.gems))
  }

  /** What each upgrade changes: "speed" only the speed, "health" only the
      hit points; "firerate", "armor" and "newtype" change nothing at all. */
  lemma {:induction false} UpgradeEffects(pos: Point, diff: Config.Difficulty)
    ensures SpawnEnemy(pos, Some(FireRate), diff) == SpawnEnemy(pos, None, diff)
    ensures SpawnEnemy(pos, Some(Armor), diff) == SpawnEnemy(pos, None, diff)
    ensures SpawnEnemy(pos, Some(NewType), diff) == SpawnEnemy(pos, None, diff)
    ensures SpawnEnemy(pos, Some(Speed), diff) == SpawnEnemy(pos, None, diff).(speed := 52.0)
    ensures SpawnEnemy(pos, Some(Health), diff).hp > SpawnEnemy(pos, None, diff).hp
    ensures SpawnEnemy(pos, Some(Health), diff) == SpawnEnemy(pos, None, diff).(hp := SpawnEnemy(pos, Some(Health), diff).hp)
  {
  }

  /** The medium-difficulty enemy: 40 hp (50 after "health"), 12 damage,
      speed 40, worth 12 gems. */
  lemma MediumEnemy(pos: Point)
    ensures SpawnEnemy(pos, None, Config.Medium) == Enemy(pos, 40, 12, 40.0, 12)
    ensures SpawnEnemy(pos, Some(Health), Config.Medium).hp == 50
  {
  }

  // ---------- Edge spawn points ----------

  const EdgeMargin: int := 40

  /** The random draws of randomEdgePosition: a side in [0, 3] and a
      coordinate along it, both ends of the inset edge included. */
  datatype EdgeDraw = EdgeDraw(side: int, t: int)

  predicate ValidEdgeDraw(d: EdgeDraw) {
    && 0 <= d.side <= 3
    && EdgeMargin <= d.t
    && d.t <= (if d.side <= 1 then Config.Width else Config.Height) - EdgeMargin
  }

  /** A point of the rectangle inset by the margin that lies on its border. */
  predicate OnInsetBorder(p: Point) {
    var lo, right, bottom := EdgeMargin as real, (Config.Width - EdgeMargin) as real, (Config.Height - EdgeMargin) as real;
    && lo <= p.x <= right && lo <= p.y <= bottom
    && (p.x == lo || p.x == right || p.y == lo || p.y == bottom)
  }

  /** randomEdgePosition: top, bottom, left or right inset edge. */
  function EdgePosition(d: EdgeDraw): (p: Point)
    requires ValidEdgeDraw(d)
    ensures OnInsetBorder(p)
  {
    if d.side == 0 then Point(d.t as real, EdgeMargin as real)
    else if d.side == 1 then Point(d.t as real, (Config.Height - EdgeMargin) as real)
    else if d.side == 2 then Point(EdgeMargin as real, d.t as real)
    else Point((Config.Width - EdgeMargin) as real, d.t as real)
  }

  /** Every whole-numbered point of the inset border is a possible spawn
      point: the draw that produces it. */
  function DrawFor(x: int, y: int): (d: EdgeDraw)
    requires OnInsetBorder(Point(x as real, y as real))
    ensures ValidEdgeDraw(d) && EdgePosition(d) == Point(x as real, y as real)
  {
    if y == EdgeMargin then EdgeDraw(0, x)
    else if y == Config.Height - EdgeMargin then EdgeDraw(1, x)
    else if x == EdgeMargin then EdgeDraw(2, y)
    else EdgeDraw(3, y)
  }

  /** The enemies a wave adds, one per edge draw, in spawn order. */
  function WaveSpawns(draws: seq<EdgeDraw>, u: Option<Upgrade>, diff: Config.Difficulty): (es: seq<Enemy>)
    requires forall i :: 0 <= i < |draws| ==> ValidEdgeDraw(draws[i])
    ensures |es| == |draws|
    ensures forall i :: 0 <= i < |es| ==> es[i] == SpawnEnemy(EdgePosition(draws[i]), u, diff)
  {
    seq(|draws|, i requires 0 <= i < |draws| => SpawnEnemy(EdgePosition(draws[i]), u, diff))
  }
}
