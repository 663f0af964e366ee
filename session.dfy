/** The game session: the scene's `state` record, its entity groups and the
    handlers that change them (main.js:99-179, 241-264, 300-321, 368-465,
    483-554, 611-623, 665-717). Phaser, the DOM and the timers are left out;
    random draws and the clock come in as parameters. */
module Game {
  import opened Common
  import opened Geometry
  import opened Entities
  import Config
  import Asteroids
  import Waves
  import Placement
  import Targeting

  /** A paid-for item waiting for a placement click. */
  datatype Placing = Placing(item: Placement.Item, cost: nat)

  const Center: Point := Point((Config.Width / 2) as real, (Config.Height / 2) as real)

  /** Fallbacks of the collision handlers when a field is unset (0). */
  const EnemyBulletDefault: int := 12
  const AsteroidBulletDefault: int := 8
  const EnemyValueDefault: int := 10
  const AsteroidDropDefault: int := 5
  const GemValueDefault: int := 1
  const ContactDamageDefault: int := 10

  /** What an enemy's kamikaze contact costs a wall. */
  const WallContactDamage: int := 30

  /** A freshly placed turret. */
  function NewTurret(p: Point): (t: Turret)
    ensures t.pos == p && t.lastShot == 0.0
  {
    Turret(p, 160.0, 900.0, 18, 0.0)
  }

  predicate LiveEnemy(e: Enemy) {
    e.hp > 0 && e.damage > 0 && e.value > 0
  }

  predicate LiveAsteroid(a: Asteroid) {
    a.hp > 0 && a.dropValue > 0
  }

  predicate LiveWall(w: Wall) {
    0 < w.hp <= Placement.WallMaxHp
  }

  /** The wave interval the scheduler draws from: the corrected bounds,
      which honour the configuration's debug switch (the code as written
      ignores it, see `Waves.WaveBoundsAsWritten`). With the switch off, as
      configured, both give 300-600 s. */
  function Bounds(): Waves.Interval {
    Waves.WaveBounds(Config.DebugShortWaves)
  }

  /** The scene's `state` record. `lastDamageTime` is in seconds,
      `nextWaveAt` in milliseconds (`None` until a wave is scheduled). */
  datatype State = State(
    running: bool,
    gems: int,
    shield: real,
    hullHits: int,
    lastDamageTime: real,
    waveNumber: nat,
    nextWaveAt: Option<real>,
    difficulty: Config.Difficulty,
    turretCount: nat)

  const InitialState: State :=
    State(false, Config.StartingGems, Config.ShieldMax, Config.HullHits, 0.0, 0, None, Config.Medium, 0)

  /** The shield after a hit of `dmg` while it is up: it absorbs the whole
      hit and stops at zero, so nothing of the hit is left over. */
  function ShieldAfterHit(shield: real, dmg: nat): (r: real)
    requires shield > 0.0
    ensures 0.0 <= r <= shield
    ensures shield - dmg as real >= 0.0 ==> r == shield - dmg as real
    ensures shield - dmg as real < 0.0 ==> r == 0.0
  {
    var s := shield - dmg as real;
    if s < 0.0 then 0.0 else s
  }

  /** Whether regeneration runs: more than the regen delay since the last
      damage (`now` in ms, `lastDamageTime` in s). */
  predicate RegenDue(now: real, lastDamageTime: real) {
    now / 1000.0 - lastDamageTime > Config.ShieldRegenDelay
  }

  /** The shield after `delta` ms of regeneration: it grows at the regen
      rate and is capped at the maximum. */
  function ShieldAfterRegen(shield: real, delta: real): (r: real)
    requires 0.0 <= shield <= Config.ShieldMax && delta >= 0.0
    ensures shield <= r <= Config.ShieldMax
    ensures r == Config.ShieldMax || r == shield + Config.ShieldRegen * (delta / 1000.0)
    ensures shield + Config.ShieldRegen * (delta / 1000.0) <= Config.ShieldMax ==>
              r == shield + Config.ShieldRegen * (delta / 1000.0)
  {
    if shield < Config.ShieldMax then
      var grown := shield + Config.ShieldRegen * (delta / 1000.0);
      if grown > Config.ShieldMax then Config.ShieldMax else grown
    else shield
  }

  class Session {
    var state: State
    /** The pending purchase; `None` when idle. */
    var placing: Option<Placing>
    /** Whether the one-shot wave timer is pending. */
    var waveTimerArmed: bool
    var player: Point
    var enemies: seq<Enemy>
    var asteroids: seq<Asteroid>
    var drops: seq<GemDrop>
    var walls: seq<Wall>
    var turrets: seq<Turret>
    var bullets: seq<Bullet>
    /** Frame time (ms) gathered towards the next asteroid roll. */
    var asteroidSpawnAccumulator: real

    /** The session invariant: shield within [0, max], balance never
        negative, hull never above its maximum, the turret counter equal to
        the number of turrets and within the cap, and every live entity
        with positive hit points and loot. */
    ghost predicate Valid()
      reads this
    {
      && 0.0 <= state.shield <= Config.ShieldMax
      && state.gems >= 0
      && state.hullHits <= Config.HullHits
      && state.turretCount == |turrets| <= Config.TurretCap
      && (forall i :: 0 <= i < |enemies| ==> LiveEnemy(enemies[i]))
      && (forall i :: 0 <= i < |asteroids| ==> LiveAsteroid(asteroids[i]))
      && (forall i :: 0 <= i < |walls| ==> LiveWall(walls[i]))
      && (forall i :: 0 <= i < |drops| ==> drops[i].value > 0)
      && asteroidSpawnAccumulator >= 0.0
    }

    /** Scene creation: default state and the three asteroids placed for
        farming before the first run. */
    constructor (mediumDrop: int, smallDrop: int, largeDrop: int)
      requires Asteroids.ValidDrop(Medium, mediumDrop)
      requires Asteroids.ValidDrop(Small, smallDrop)
      requires Asteroids.ValidDrop(Large, largeDrop)
      ensures Valid()
      ensures state == InitialState && placing.None? && !waveTimerArmed && player == Center
      ensures enemies == [] && drops == [] && walls == [] && turrets == [] && bullets == []
      ensures asteroids == [Asteroids.SpawnAsteroid(Medium, Point(150.0, 120.0), mediumDrop),
                            Asteroids.SpawnAsteroid(Small, Point(400.0, 80.0), smallDrop),
                            Asteroids.SpawnAsteroid(Large, Point(900.0, 200.0), largeDrop)]
      ensures asteroidSpawnAccumulator == 0.0
    {
      state := InitialState;
      placing := None;
      waveTimerArmed := false;
      player := Center;
      enemies, drops, walls, turrets, bullets := [], [], [], [], [];
      asteroids := [Asteroids.SpawnAsteroid(Medium, Point(150.0, 120.0), mediumDrop),
                    Asteroids.SpawnAsteroid(Small, Point(400.0, 80.0), smallDrop),
                    Asteroids.SpawnAsteroid(Large, Point(900.0, 200.0), largeDrop)];
      asteroidSpawnAccumulator := 0.0;
    }

    // ---------- Session control ----------

    /** scheduleNextWave: arm the one-shot wave timer `sec` seconds ahead. */
    method ScheduleNextWave(now: real, sec: int)
      requires Bounds().lo <= sec <= Bounds().hi
      modifies this`state, this`waveTimerArmed
      ensures state == old(state).(nextWaveAt := Some(Waves.NextWaveAt(now, sec, Bounds())))
      ensures waveTimerArmed
    {
      state := state.(nextWaveAt := Some(Waves.NextWaveAt(now, sec, Bounds())));
      waveTimerArmed := true;
    }

    /** startRun: reset the session, arm the first wave and seed four small,
        one medium and one large asteroid. */
    method StartRun(now: real, sec: int, draws: seq<Asteroids.AsteroidDraw>)
      requires Valid()
      requires Bounds().lo <= sec <= Bounds().hi
      requires Asteroids.ValidDraws(Asteroids.StartTiers, draws)
      modifies this`state, this`waveTimerArmed, this`player
      modifies this`enemies, this`asteroids, this`drops, this`walls, this`turrets
      ensures Valid()
      ensures state == old(state).(running := true, gems := Config.StartingGems, shield := Config.ShieldMax,
                                   hullHits := Config.HullHits, lastDamageTime := 0.0, waveNumber := 0,
                                   turretCount := 0, nextWaveAt := Some(Waves.NextWaveAt(now, sec, Bounds())))
      ensures waveTimerArmed && player == Center
      ensures enemies == [] && drops == [] && walls == [] && turrets == []
      ensures asteroids == Asteroids.SpawnAll(Asteroids.StartTiers, draws)
    {
      state := state.(running := true, gems := Config.StartingGems, shield := Config.ShieldMax,
                      hullHits := Config.HullHits, lastDamageTime := 0.0, waveNumber := 0, turretCount := 0);
      enemies, asteroids, drops, walls, turrets := [], [], [], [], [];
      player := Center;
      ScheduleNextWave(now, sec);
      SeedAsteroids(draws);
    }

    /** startRun's refill: four small asteroids, then a medium and a large. */
    method SeedAsteroids(draws: seq<Asteroids.AsteroidDraw>)
      requires Asteroids.ValidDraws(Asteroids.StartTiers, draws)
      modifies this`asteroids
      ensures asteroids == old(asteroids) + Asteroids.SpawnAll(Asteroids.StartTiers, draws)
    {
      for i := 0 to 4
        invariant |asteroids| == |old(asteroids)| + i
        invariant asteroids[..|old(asteroids)|] == old(asteroids)
        invariant forall k :: 0 <= k < i ==>
                    asteroids[|old(asteroids)| + k] == Asteroids.SpawnAsteroid(Small, draws[k].pos, draws[k].drop)
      {
        SpawnAsteroid(Small, draws[i]);
      }
      SpawnAsteroid(Medium, draws[4]);
      SpawnAsteroid(Large, draws[5]);
    }

    /** spawnAsteroid: a fresh asteroid of tier `t` at the drawn position
        with the drawn drop value joins the group. */
    method SpawnAsteroid(t: Tier, d: Asteroids.AsteroidDraw)
      requires Asteroids.ValidDrop(t, d.drop)
      modifies this`asteroids
      ensures asteroids == old(asteroids) + [Asteroids.SpawnAsteroid(t, d.pos, d.drop)]
    {
      asteroids := asteroids + [Asteroids.SpawnAsteroid(t, d.pos, d.drop)];
    }

    /** fullReset, run after the death delay: the same defaults as startRun
        but stopped, with the wave timer cancelled. The time of the last
        damage, a pending placement, the bullets and the recorded next-wave
        time are kept. */
    method FullReset()
      requires Valid()
      modifies this`state, this`waveTimerArmed, this`player
      modifies this`enemies, this`asteroids, this`drops, this`walls, this`turrets
      ensures Valid()
      ensures state == old(state).(running := false, gems := Config.StartingGems, shield := Config.ShieldMax,
                                   hullHits := Config.HullHits, waveNumber := 0, turretCount := 0)
      ensures !waveTimerArmed && player == Center
      ensures enemies == [] && asteroids == [] && drops == [] && walls == [] && turrets == []
    {
      state := state.(running := false, gems := Config.StartingGems, shield := Config.ShieldMax,
                      hullHits := Config.HullHits, waveNumber := 0, turretCount := 0);
      waveTimerArmed := false;
      enemies, asteroids, drops, walls, turrets := [], [], [], [], [];
      player := Center;
    }

    // ---------- Defence ----------

    /** applyDamageToPlayer (`now` in ms): the shield takes the whole hit
        while it is up; once it is down every hit costs exactly one hull
        point. Returns whether the hull is gone, which schedules the full
        reset. */
    method ApplyDamage(dmg: nat, now: real) returns (died: bool)
      requires Valid()
      modifies this`state
      ensures Valid()
      ensures old(state.shield) > 0.0 ==>
                state == old(state).(lastDamageTime := now / 1000.0, shield := ShieldAfterHit(old(state.shield), dmg))
                && !died
      ensures old(state.shield) == 0.0 ==>
                state == old(state).(lastDamageTime := now / 1000.0, hullHits := old(state.hullHits) - 1)
                && died == (state.hullHits <= 0)
    {
      state := state.(lastDamageTime := now / 1000.0);
      if state.shield > 0.0 {
        var shield := state.shield - dmg as real;
        if shield < 0.0 {
          shield := 0.0;
        }
        state := state.(shield := shield);
        died := false;
      } else {
        state := state.(hullHits := state.hullHits - 1);
        died := state.hullHits <= 0;
      }
    }

    /** updateShieldRegen (`now` and `delta` in ms). */
    method UpdateShieldRegen(now: real, delta: real)
      requires Valid() && delta >= 0.0
      modifies this`state
      ensures Valid()
      ensures !RegenDue(now, old(state.lastDamageTime)) ==> state == old(state)
      ensures RegenDue(now, old(state.lastDamageTime)) ==>
                state == old(state).(shield := ShieldAfterRegen(old(state.shield), delta))
    {
      if now / 1000.0 - state.lastDamageTime > Config.ShieldRegenDelay {
        if state.shield < Config.ShieldMax {
          var shield := state.shield + Config.ShieldRegen * (delta / 1000.0);
          if shield > Config.ShieldMax {
            shield := Config.ShieldMax;
          }
          state := state.(shield := shield);
        }
      }
    }

    // ---------- Economy and placement ----------

    /** attemptBuyItem with the placement kept: the catalogue price is
        debited on entering placement, and nothing changes when the balance
        is short. */
    method AttemptBuyItem(item: Placement.Item)
      requires Valid()
      modifies this`state, this`placing
      ensures Valid()
      ensures old(state.gems) < Placement.Cost(item) ==> state == old(state) && placing == old(placing)
      ensures old(state.gems) >= Placement.Cost(item) ==>
                state == old(state).(gems := old(state.gems) - Placement.Cost(item))
                && placing == Some(Placing(item, Placement.Cost(item)))
    {
      var cost := Placement.Cost(item);
      match Placement.Debit(state.gems, cost) {
        case None =>
        case Some(balance) =>
          CancelPlacement();
          state := state.(gems := balance);
          placing := Some(Placing(item, cost));
      }
    }

    /** attemptBuyItem as written: the placement record is set, then the
        ghost set-up cancels any placement, clearing that very record. */
    method AttemptBuyItemAsWritten(item: Placement.Item)
      requires Valid()
      modifies this`state, this`placing
      ensures Valid()
      ensures old(state.gems) < Placement.Cost(item) ==> state == old(state) && placing == old(placing)
      ensures old(state.gems) >= Placement.Cost(item) ==>
                state == old(state).(gems := old(state.gems) - Placement.Cost(item)) && placing.None?
    {
      var cost := Placement.Cost(item);
      match Placement.Debit(state.gems, cost) {
        case None =>
        case Some(balance) =>
          state := state.(gems := balance);
          placing := Some(Placing(item, cost));
          CancelPlacement();
      }
    }

    /** cancelPlacement: back to idle, with no refund. */
    method CancelPlacement()
      modifies this`placing
      ensures placing.None?
    {
      placing := None;
    }

    /** isPlacementValid against the current player and walls. */
    function CanPlace(p: Point): bool
      reads this
    {
      Placement.PlacementValid(p, player, WallPoints(walls))
    }

    /** attemptPlace: builds what was bought, if the point is valid and, for
        a turret, the cap is not reached; repairs the nearest wall within
        60. Never touches the balance: a rejected or useless placement is
        not refunded. Always ends idle. */
    method AttemptPlace(p: Point)
      requires Valid()
      modifies this`placing, this`state, this`walls, this`turrets
      ensures Valid()
      ensures placing.None?
      ensures state == old(state).(turretCount := state.turretCount)
      ensures state.turretCount == |turrets|
      ensures old(placing).None? || !old(CanPlace(p)) ==> walls == old(walls) && turrets == old(turrets)
      ensures old(placing).Some? && old(CanPlace(p)) ==>
                match old(placing).value.item
                case WallItem =>
                  walls == old(walls) + [Wall(p, Placement.WallMaxHp)] && turrets == old(turrets)
                case TurretItem =>
                  walls == old(walls) &&
                  (if old(state.turretCount) >= Config.TurretCap then turrets == old(turrets)
                   else turrets == old(turrets) + [NewTurret(p)])
                case Repair =>
                  turrets == old(turrets) &&
                  (match Placement.RepairTarget(WallPoints(old(walls)), p)
                   case Some(i) => walls == old(walls)[i := old(walls)[i].(hp := Placement.Repaired(old(walls)[i].hp))]
                   case None => walls == old(walls))
                case ShipUp => walls == old(walls) && turrets == old(turrets)
                case NewShip => walls == old(walls) && turrets == old(turrets)
                case Other(_) => walls == old(walls) && turrets == old(turrets)
    {
      if placing.None? {
        return;
      }
      var item := placing.value.item;
      if !CanPlace(p) {
        CancelPlacement();
        return;
      }
      match item {
        case WallItem =>
          walls := walls + [Wall(p, Placement.WallMaxHp)];
        case TurretItem =>
          if state.turretCount >= Config.TurretCap {
            CancelPlacement();
            return;
          }
          turrets := turrets + [NewTurret(p)];
          state := state.(turretCount := state.turretCount + 1);
        case Repair =>
          match Placement.RepairTarget(WallPoints(walls), p) {
            case Some(i) =>
              var w := walls[i];
              walls := walls[i := w.(hp := Placement.Repaired(w.hp))];
            case None =>
          }
        case _ =>
      }
      CancelPlacement();
    }

    // ---------- Waves ----------

    /** startWave: next wave number, its enemies at edge positions with the
        upgrade of even waves, and the next wave armed. */
    method StartWave(pick: nat, draws: seq<Waves.EdgeDraw>, now: real, sec: int)
      requires Valid()
      requires pick < |Waves.UpgradeChoices|
      requires |draws| == Waves.EnemyCount(state.waveNumber + 1, state.difficulty)
      requires forall i :: 0 <= i < |draws| ==> Waves.ValidEdgeDraw(draws[i])
      requires Bounds().lo <= sec <= Bounds().hi
      modifies this`state, this`enemies, this`waveTimerArmed
      ensures Valid()
      ensures state == old(state).(waveNumber := old(state.waveNumber) + 1,
                                   nextWaveAt := Some(Waves.NextWaveAt(now, sec, Bounds())))
      ensures enemies == old(enemies) +
                Waves.WaveSpawns(draws, Waves.WaveUpgrade(state.waveNumber, pick), state.difficulty)
      ensures waveTimerArmed
    {
      state := state.(waveNumber := state.waveNumber + 1);
      var w := state.waveNumber;
      var diff := state.difficulty;
      var baseCount := Waves.EnemyCount(w, diff);
      var upgrade := Waves.WaveUpgrade(w, pick);
      for i := 0 to baseCount
        invariant state == old(state).(waveNumber := w)
        invariant enemies == old(enemies) + Waves.WaveSpawns(draws[..i], upgrade, diff)
        invariant forall k :: 0 <= k < |enemies| ==> LiveEnemy(enemies[k])
      {
        var pos := Waves.EdgePosition(draws[i]);
        enemies := enemies + [Waves.SpawnEnemy(pos, upgrade, diff)];
      }
      assert draws[..baseCount] == draws;
      ScheduleNextWave(now, sec);
    }

    // ---------- Combat ----------

    /** onBulletHitEnemy for the pair (bullets[bi], enemies[ei]); a pair
        naming an entity already gone is a no-op. */
    method OnBulletHitEnemy(bi: nat, ei: nat) returns (killed: bool)
      requires Valid()
      modifies this`bullets, this`enemies, this`drops
      ensures Valid()
      ensures bi >= old(|bullets|) || ei >= old(|enemies|) ==>
                !killed && bullets == old(bullets) && enemies == old(enemies) && drops == old(drops)
      ensures bi < old(|bullets|) && ei < old(|enemies|) ==>
                var e := old(enemies)[ei];
                var hp := e.hp - OrDefault(old(bullets)[bi].damage, EnemyBulletDefault);
                && bullets == RemoveAt(old(bullets), bi)
                && killed == (hp <= 0)
                && (killed ==> enemies == RemoveAt(old(enemies), ei)
                               && drops == old(drops) + [GemDrop(e.pos, OrDefault(e.value, EnemyValueDefault))])
                && (!killed ==> enemies == old(enemies)[ei := e.(hp := hp)] && drops == old(drops))
    {
      killed := false;
      if bi >= |bullets| || ei >= |enemies| {
        return;
      }
      var e := enemies[ei];
      var hp := e.hp - OrDefault(bullets[bi].damage, EnemyBulletDefault);
      bullets := RemoveAt(bullets, bi);
      if hp <= 0 {
        drops := drops + [GemDrop(e.pos, OrDefault(e.value, EnemyValueDefault))];
        enemies := RemoveAt(enemies, ei);
        killed := true;
      } else {
        enemies := enemies[ei := e.(hp := hp)];
      }
    }

    /** onBulletHitAsteroid: as for enemies, with the asteroid's fallbacks. */
    method OnBulletHitAsteroid(bi: nat, ai: nat) returns (destroyed: bool)
      requires Valid()
      modifies this`bullets, this`asteroids, this`drops
      ensures Valid()
      ensures bi >= old(|bullets|) || ai >= old(|asteroids|) ==>
                !destroyed && bullets == old(bullets) && asteroids == old(asteroids) && drops == old(drops)
      ensures bi < old(|bullets|) && ai < old(|asteroids|) ==>
                var a := old(asteroids)[ai];
                var hp := OrDefault(a.hp, a.initialHp) - OrDefault(old(bullets)[bi].damage, AsteroidBulletDefault);
                && bullets == RemoveAt(old(bullets), bi)
                && destroyed == (hp <= 0)
                && (destroyed ==> asteroids == RemoveAt(old(asteroids), ai)
                                  && drops == old(drops) + [GemDrop(a.pos, OrDefault(a.dropValue, AsteroidDropDefault))])
                && (!destroyed ==> asteroids == old(asteroids)[ai := a.(hp := hp)] && drops == old(drops))
    {
      destroyed := false;
      if bi >= |bullets| || ai >= |asteroids| {
        return;
      }
      var a := asteroids[ai];
      var hp := OrDefault(a.hp, a.initialHp) - OrDefault(bullets[bi].damage, AsteroidBulletDefault);
      bullets := RemoveAt(bullets, bi);
      if hp <= 0 {
        drops := drops + [GemDrop(a.pos, OrDefault(a.dropValue, AsteroidDropDefault))];
        asteroids := RemoveAt(asteroids, ai);
        destroyed := true;
      } else {
        asteroids := asteroids[ai := a.(hp := hp)];
      }
    }

    /** onPickupGem: the gem's value is credited and the gem removed. */
    method OnPickupGem(gi: nat)
      requires Valid()
      modifies this`state, this`drops
      ensures Valid()
      ensures gi >= old(|drops|) ==> state == old(state) && drops == old(drops)
      ensures gi < old(|drops|) ==>
                state == old(state).(gems := old(state.gems) + OrDefault(old(drops)[gi].value, GemValueDefault))
                && drops == RemoveAt(old(drops), gi)
      ensures state.gems >= old(state.gems)
    {
      if gi >= |drops| {
        return;
      }
      state := state.(gems := state.gems + OrDefault(drops[gi].value, GemValueDefault));
      drops := RemoveAt(drops, gi);
    }

    /** onEnemyHitWall: the wall loses 30 hp (from 100 if unset) and goes
        when it reaches 0; the enemy is always destroyed. */
    method OnEnemyHitWall(ei: nat, wi: nat)
      requires Valid()
      modifies this`enemies, this`walls
      ensures Valid()
      ensures wi >= old(|walls|) ==> walls == old(walls) && enemies == old(enemies)
      ensures wi < old(|walls|) ==>
                var w := old(walls)[wi];
                var hp := OrDefault(w.hp, Placement.WallMaxHp) - WallContactDamage;
                && (hp <= 0 ==> walls == RemoveAt(old(walls), wi))
                && (hp > 0 ==> walls == old(walls)[wi := w.(hp := hp)])
                && enemies == if ei < old(|enemies|) then RemoveAt(old(enemies), ei) else old(enemies)
    {
      if wi >= |walls| {
        return;
      }
      var w := walls[wi];
      var hp := OrDefault(w.hp, Placement.WallMaxHp) - WallContactDamage;
      if hp <= 0 {
        walls := RemoveAt(walls, wi);
      } else {
        walls := walls[wi := w.(hp := hp)];
      }
      if ei < |enemies| {
        enemies := RemoveAt(enemies, ei);
      }
    }

    /** onEnemyHitPlayer: the enemy's contact damage goes to the shield or
        hull, and the enemy is destroyed. */
    method OnEnemyHitPlayer(ei: nat, now: real) returns (died: bool)
      requires Valid()
      modifies this`enemies, this`state
      ensures Valid()
      ensures ei >= old(|enemies|) ==> !died && enemies == old(enemies) && state == old(state)
      ensures ei < old(|enemies|) ==>
                var dmg := OrDefault(old(enemies)[ei].damage, ContactDamageDefault);
                && enemies == RemoveAt(old(enemies), ei)
                && (old(state.shield) > 0.0 ==>
                      state == old(state).(lastDamageTime := now / 1000.0, shield := ShieldAfterHit(old(state.shield), dmg))
                      && !died)
                && (old(state.shield) == 0.0 ==>
                      state == old(state).(lastDamageTime := now / 1000.0, hullHits := old(state.hullHits) - 1)
                      && died == (state.hullHits <= 0))
    {
      died := false;
      if ei >= |enemies| {
        return;
      }
      var dmg := OrDefault(enemies[ei].damage, ContactDamageDefault);
      died := ApplyDamage(dmg, now);
      enemies := RemoveAt(enemies, ei);
    }

    // ---------- Turrets and asteroids ----------

    /** updateTurrets: every turret whose cooldown has run fires at its
        nearest enemy in reach and records the shot time. */
    method UpdateTurrets(time: real)
      requires Valid()
      modifies this`turrets, this`bullets
      ensures Valid()
      ensures |turrets| == old(|turrets|)
      ensures forall i :: 0 <= i < |turrets| ==>
                turrets[i] == Targeting.TurretAfter(old(turrets)[i], EnemyPoints(enemies), time)
      ensures bullets == old(bullets) + Targeting.Volley(old(turrets), EnemyPoints(enemies), time)
    {
      var targets := EnemyPoints(enemies);
      ghost var ts := turrets;
      ghost var bs := bullets;
      var i := 0;
      while i < |turrets|
        invariant 0 <= i <= |turrets| == |ts|
        invariant forall k :: 0 <= k < i ==> turrets[k] == Targeting.TurretAfter(ts[k], targets, time)
        invariant forall k :: i <= k < |turrets| ==> turrets[k] == ts[k]
        invariant bullets == bs + Targeting.Volley(ts[..i], targets, time)
      {
        var t := turrets[i];
        Targeting.VolleyStep(ts, i, targets, time);
        turrets := turrets[i := Targeting.TurretAfter(t, targets, time)];
        bullets := bullets + Targeting.Shot(t, targets, time);
        i := i + 1;
      }
      assert ts[..i] == ts;
    }

    /** maybeSpawnAsteroid: after 2.5 s of accumulated frame time, roll
        `r` in [1, 100] and spawn the tiers the roll names. */
    method MaybeSpawnAsteroid(delta: real, r: int, draws: seq<Asteroids.AsteroidDraw>)
      requires Valid() && delta >= 0.0
      requires 1 <= r <= 100
      requires Asteroids.ValidDraws(Asteroids.Roll(r), draws)
      modifies this`asteroidSpawnAccumulator, this`asteroids
      ensures Valid()
      ensures old(asteroidSpawnAccumulator) + delta < Asteroids.SpawnInterval ==>
                asteroidSpawnAccumulator == old(asteroidSpawnAccumulator) + delta && asteroids == old(asteroids)
      ensures old(asteroidSpawnAccumulator) + delta >= Asteroids.SpawnInterval ==>
                asteroidSpawnAccumulator == 0.0
                && asteroids == old(asteroids) + Asteroids.SpawnAll(Asteroids.Roll(r), draws)
    {
      asteroidSpawnAccumulator := asteroidSpawnAccumulator + delta;
      if asteroidSpawnAccumulator < Asteroids.SpawnInterval {
        return;
      }
      asteroidSpawnAccumulator := 0.0;
      var k := 0;
      if r <= 30 {
        SpawnAsteroid(Small, draws[k]);
        k := k + 1;
      }
      if r > 90 {
        SpawnAsteroid(Medium, draws[k]);
        k := k + 1;
      }
      if r == 100 {
        SpawnAsteroid(Large, draws[k]);
      }
    }
  }
}
