# Starblast-again session rules in Dafny

A model of the simulation rules of the browser game in `main.js`
(a Phaser arena shooter with base building), taken apart from Phaser and
the DOM, and of what those rules guarantee.

The game session (`Game.Session`, `session.dfy`) is a class with these fields:

- the scene's `state` record: running, gems, shield, hull hits, time of the last damage, wave number, next-wave time, difficulty and turret count;
- the pending purchase (`placing`);
- whether the one-shot wave timer is pending (`waveTimerArmed`);
- the ship's position (`player`);
- one sequence per Phaser group: enemies, asteroids, gem drops, walls, turrets and bullets;
- the asteroid spawn accumulator.

Each handler of the game is a method that changes those fields, and its
postcondition states the whole new state.

- Player defence: `ApplyDamage`, `UpdateShieldRegen`, and the `StartRun` and `FullReset` resets.
- Economy: the buy/place state machine (`AttemptBuyItem`, `AttemptPlace`, `CancelPlacement`).
- Waves: `StartWave`, with its spawn loop.
- Combat: the overlap handlers (`OnBulletHitEnemy`, `OnBulletHitAsteroid`, `OnPickupGem`, `OnEnemyHitWall`, `OnEnemyHitPlayer`).
- Turrets and asteroids: the turret pass (`UpdateTurrets`, a loop proved against `Targeting.Volley`) and the asteroid spawn roll (`MaybeSpawnAsteroid`).

Every method keeps the session invariant `Valid()`:

- the shield stays in [0, 100] and the gem balance never goes negative;
- the hull never exceeds its maximum;
- the turret counter equals the number of turrets and stays within the cap of 8;
- every enemy has positive hp, damage and gem value, every asteroid positive hp and drop, every wall hp in (0, 100], and every gem drop a positive value (turrets and bullets are not constrained);
- the asteroid spawn accumulator is never negative.

The read-only rules are pure functions with lemmas, grouped by module:

- `Config`: the configuration object, JavaScript's `Math.round` and `Math.ceil`.
- `Geometry`: squared distances, and the "first nearest so far" scan used for walls, enemies and repairs.
- `Placement`: the catalogue, the guarded debit, `isPlacementValid` and wall repair.
- `Waves`: the wave interval, enemy count, upgrades, enemy stats and edge spawn points.
- `Asteroids`: the tier table and the spawn roll.
- `Targeting`: enemy seeking and turret target choice.
- `Countdown`: the "Next wave in: mm:ss" text.

Two further modules:

- `Scenarios` runs whole purchases on a fresh session.
- `Common` holds `Option` and removal from a sequence.

Random draws (`Phaser.Math.Between`, `GetRandom`) and the clock are
parameters, each under a precondition on its range. Distances are
compared squared, so `d < 60` becomes `dx² + dy² < 3600`. The difficulty
multipliers are `real`s.

The code, which the model follows, does the following:

- Hit points and `hullHits` can go below zero. A hit that reaches zero is not clamped, and hull hits during the death delay keep counting down.
- `fullReset` differs from `startRun` in four ways. It sets `running` to false where `startRun` sets it to true, it leaves `lastDamageTime` as it was, it seeds no asteroids, and it cancels the wave timer where `startRun` arms it (the recorded next-wave time stays). Both keep the pending purchase, the bullets and the spawn accumulator.
- `startRun` draws the positions and drop values of its six asteroids at random.

## Model

| member | source | states |
|---|---|---|
| Config.MultipliersOf | main.js:23-27 | The difficulty multipliers lie in their configured ranges; medium is neutral (all 1). |
| Config.Round | main.js:336-340 | `Math.round`: the result is within one half of x, halves rounding up. |
| Config.Ceil | main.js:292 | `Math.ceil`: the least integer not below x. |
| Entities.OrDefault | main.js:370 | JavaScript's `v \|\| d` on a number: v unless it is 0, then d. |
| Geometry.Nearest | main.js:355-361 | The scan ends with a point within the starting bound and no farther than any point. It is the first such point: strictly nearer than all before it. It is absent exactly when no point is within the bound. |
| Asteroids.InitialHp | main.js:529-531 | Every tier starts with positive hit points. |
| Asteroids.TiersOrdered | main.js:529-531 | A larger tier has more hit points, and every drop it can give exceeds every drop of a smaller tier. |
| Asteroids.SpawnAsteroid | main.js:525-534 | A spawned asteroid has the requested tier and position, full hp equal to the tier's initial hp, and the drawn drop, within the tier's range. |
| Asteroids.Roll | main.js:519-522 | The roll spawns a small iff r ≤ 30, a medium iff r > 90, a large iff r = 100. Two spawn only at 100, medium before large, none for 31..90. |
| Asteroids.SpawnAll | main.js:261-263 | One asteroid per tier, in order, each from its own draw. |
| Waves.WaveBounds | main.js:10-15 | The corrected interval: exactly 15-30 s with the configuration's debug switch on, exactly 300-600 s otherwise. |
| Waves.WaveBoundsAsWritten | main.js:268-269 | As written, the interval is always 300-600 s, whatever the configuration's switch says. |
| Waves.DebugSwitchIgnored | main.js:12-15 | Turning the configuration's debug switch on leaves the code's interval at 300 s minimum, while the configuration means at most 30 s. |
| Waves.NextWaveAt | main.js:270-273 | The next wave lies between now + min·1000 and now + max·1000 ms. |
| Waves.EnemyCount | main.js:307 | Every wave has at least three enemies. |
| Waves.EnemyCountGrows | main.js:307 | Each wave has strictly more enemies than the one before, under every difficulty. |
| Waves.MediumEnemyCounts | main.js:307 | On medium, waves 1, 2, 4 and 10 bring 5, 6, 9 and 16 enemies. |
| Waves.WaveUpgrade | main.js:309-314 | A global upgrade is chosen iff the wave number is even, and it is one of the five choices. |
| Waves.EveryUpgradeReachable | main.js:311-312 | On an even wave, every one of the five upgrades can be drawn. |
| Waves.SpawnEnemy | main.js:333-340 | An enemy spawns where asked, with positive hp, damage, speed and gem value. |
| Waves.UpgradeEffects | main.js:336-338 | "firerate", "armor" and "newtype" change nothing. "speed" changes only the speed, to 52. "health" changes only the hp, and raises it. |
| Waves.MediumEnemy | main.js:336-340 | On medium an enemy has 40 hp (50 after "health"), 12 damage, speed 40 and is worth 12 gems. |
| Waves.EdgePosition | main.js:323-331 | Every spawn point lies on the border of the arena inset by 40. |
| Waves.DrawFor | main.js:323-331 | Conversely, every whole-numbered point of that border is produced by some valid draw. |
| Waves.WaveSpawns | main.js:315-318 | One enemy per edge draw, in order, with the wave's upgrade and difficulty. |
| Placement.Cost | main.js:612-613 | Wall 10, repair 5, turret 50, ship upgrade 40, new ship 100; the price is 0 exactly for an unknown item. |
| Placement.Debit | main.js:614-619 | Refused iff the balance is below the cost; otherwise the new balance is non-negative and plus the cost gives back the old one. |
| Placement.ClearOfWalls | main.js:658-661 | The `ok` flag ends true iff every wall is at least 40 away. |
| Placement.PlacementValid | main.js:652-663 | Valid iff inside the 30 margin, at least 60 from the player and at least 40 from every wall; the item type plays no part. |
| Placement.PlacementRejections | main.js:652-662 | A point is rejected exactly when it is outside the margin, within 60 of the player, or within 40 of some wall. |
| Placement.MoreWallsNeverHelp | main.js:658-661 | Adding a wall never turns a rejected point into a valid one. |
| Placement.RepairTarget | main.js:695-701 | The repaired wall is the first nearest wall (strictly nearer than every wall before it, as the `d < nd` scan keeps) and closer than 60; there is none exactly when every wall is 60 or farther. |
| Placement.RepairRing | main.js:695-701 | A repair that passes the placement check heals a wall between 40 and 60 away. |
| Placement.Repaired | main.js:702 | A repair adds 25 hp capped at 100: it raises hp unless the wall is already full. |
| Targeting.SeekTarget | main.js:355-366 | An enemy chases a wall only when it is the first nearest wall and no farther than the player. It chases the player iff the player is strictly nearer than every wall. |
| Targeting.SeekTargetCases | main.js:362-365 | A wall at most as far as the player is always chased over the player; with no walls the player is chased. |
| Targeting.TurretTarget | main.js:486-493 | A turret fires only once cooled down, at an enemy within range + 1 that is the first nearest enemy. It holds fire exactly when cooling down or when no enemy is in reach. |
| Targeting.TurretAfter | main.js:494-496 | A turret records the shot time exactly when it fires; nothing else about it changes. |
| Targeting.Shot | main.js:494-505 | A turret adds a bullet iff it has a target, and that bullet leaves from the turret with its damage. |
| Targeting.Volley | main.js:484-507 | A turret pass fires at most one bullet per turret. |
| Targeting.VolleyStep | main.js:484-507 | Extending the pass by one turret appends exactly that turret's shot, in turret order. |
| Targeting.VolleyFromFiringTurrets | main.js:494-505 | Every bullet of a pass comes from a turret that found a target, from its position and with its damage. |
| Targeting.NoEnemiesNoVolley | main.js:490-494 | With no enemies no turret fires. |
| Countdown.SecondsLeft | main.js:291-292 | Whole seconds left, rounded up; 0 once the wave time has passed. |
| Countdown.Decimal | main.js:293-294 | `toString` of a number gives one digit below 10 and two digits below 100. |
| Countdown.DecimalRoundTrip | main.js:293-294 | Reading the decimal digits back gives the number. |
| Countdown.LeadingZero | main.js:293-294 | A leading zero added by `padStart` does not change the value read. |
| Countdown.PadStart2 | main.js:293-294 | `padStart(2, '0')` leaves two or more characters alone and puts '0's in front of a shorter string to make it two long. |
| Countdown.Clock | main.js:293-295 | The `${mm}:${ss}` text has at least five characters with the colon third from the end, and exactly five below 100 minutes. |
| Countdown.ClockRoundTrip | main.js:293-295 | The text reads "mm:ss" with two seconds digits, and reading it back gives exactly the seconds left. |
| Countdown.CountdownText | main.js:286-295 | The placeholder is shown while the run is stopped or no wave time is recorded; otherwise the prefix and the clock of the seconds left. |
| Game.NewTurret | main.js:686-689 | A turret is placed where clicked, not yet having fired. |
| Game.ShieldAfterHit | main.js:423-425 | A hit on a raised shield lowers it by the damage and stops at 0. The shield stays within [0, old shield], so no excess reaches the hull. |
| Game.ShieldAfterRegen | main.js:549-551 | Regeneration never lowers the shield, never exceeds the maximum, and adds 6 per second when there is room. |
| Game.Session.constructor | main.js:99-169 | The scene starts stopped, with 50 gems, a full shield, 2 hull hits and no wave. It holds the three farming asteroids and nothing else, and the ship is centred. |
| Game.Session.ScheduleNextWave | main.js:266-278 | Records a next-wave time within the drawn interval and arms the timer; nothing else in the state changes. |
| Game.Session.StartRun | main.js:241-264 | Running with all defaults restored and every group but the bullets emptied. The ship is centred, the first wave is armed, and four small, one medium and one large asteroid are seeded. |
| Game.Session.SeedAsteroids | main.js:261-263 | Appends exactly the six starting asteroids, in order. |
| Game.Session.SpawnAsteroid | main.js:525-534 | Appends one fresh asteroid of the given tier. |
| Game.Session.FullReset | main.js:444-465 | Stopped, with gems, shield, hull, wave and turret count at their defaults. Every group except the bullets is emptied, the ship is centred and the wave timer is cancelled. |
| Game.Session.ApplyDamage | main.js:421-442 | The damage time is always recorded. With the shield up, only the shield drops, and the hull and the outcome are untouched. With it down, exactly one hull hit is lost, whatever the damage, and death is reported iff the hull reaches 0. |
| Game.Session.UpdateShieldRegen | main.js:546-554 | Nothing changes within 3 s of the last damage; afterwards the shield regenerates, capped at the maximum. |
| Game.Session.AttemptBuyItem | main.js:611-622 | The corrected buy, where the purchase record survives the ghost set-up (the code as written clears it, see `AttemptBuyItemAsWritten`). A short balance leaves balance and purchase as they were. Otherwise the price is debited and the purchase recorded, and the balance stays non-negative. |
| Game.Session.AttemptBuyItemAsWritten | main.js:611-626 | As written, the price is debited and the purchase record is then cleared by the ghost set-up. |
| Game.Session.CancelPlacement | main.js:711-717 | The session is idle afterwards. |
| Game.Session.AttemptPlace | main.js:665-709 | Gems are never touched (no refund) and the session always ends idle. A valid wall click adds a full wall. A valid turret click adds a turret unless the cap of 8 is reached. A repair heals the nearest wall within 60. An invalid click or no purchase changes nothing. |
| Game.Session.StartWave | main.js:300-321 | The wave number rises by exactly 1. The enemy-count formula's number of enemies is appended, each at its edge point with the wave's upgrade, and the next wave is armed. |
| Game.Session.OnBulletHitEnemy | main.js:368-381 | The bullet is always removed and the enemy loses the bullet's damage (12 if unset). The enemy is removed, with a gem of its value (10 if unset) dropped, exactly when its hp reaches 0. |
| Game.Session.OnBulletHitAsteroid | main.js:383-392 | The bullet is always removed and the asteroid loses the bullet's damage (8 if unset), from its initial hp if unset. It is removed, dropping its value (5 if unset), exactly when its hp reaches 0. |
| Game.Session.OnPickupGem | main.js:394-399 | The gem's value (1 if unset) is credited and the gem removed; the balance never falls. |
| Game.Session.OnEnemyHitWall | main.js:401-410 | The wall loses 30 hp (from 100 if unset) and is removed iff it reaches 0; the enemy is always destroyed. |
| Game.Session.OnEnemyHitPlayer | main.js:412-419 | The enemy's damage (10 if unset) is applied as in `ApplyDamage`, and the enemy is destroyed. |
| Game.Session.UpdateTurrets | main.js:483-509 | Every turret becomes its own turn's result, and the bullets fired are exactly the volley, appended in turret order. |
| Game.Session.MaybeSpawnAsteroid | main.js:512-523 | Below 2.5 s of accumulated time only the accumulator grows. Otherwise it resets to 0 and exactly the rolled tiers are spawned. |
| Scenarios.LostPurchaseAsWritten | main.js:611-666 | As written, buying a wall costs 10 gems and the following click builds nothing, wherever it lands. |
| Scenarios.WallPurchase | main.js:611-679 | With the purchase kept, buying a wall and clicking a free spot builds one full wall there for 10 gems. |
| Scenarios.RejectedPlacement | main.js:665-672 | A click next to the ship after buying a turret places nothing, refunds nothing and ends idle. |

## Left out

- Phaser and the DOM are not modelled: textures, scene wiring, HUD text, the shop overlay, visual effects and the unused `showTextFloating`.
- Timers are not modelled: the wave timer's firing, the 900 ms death delay before `fullReset`, the countdown poll's interval, the bullet lifetime and the 10 s gem disable. Only the values they compute are modelled (`nextWaveAt`, the countdown text, the death flag).
- Movement, aiming, physics overlap detection and the player's own shooting (`update`'s movement and firing, `firePlayerBullet`) are not modelled; they are engine floating point. The collision handlers take the indices of the overlapping pair.
- The player's position is only ever set to the centre, because movement is out of scope.
- Game.Session.UpdateTurrets: the bullet pool's limit of 200 is not modelled. A turret whose bullet cannot be allocated still records its shot time in the code but fires nothing; the model always adds the bullet.
- The turrets' `active` flag is not modelled: a turret in the group is always active.
- Floating-point rounding is not reproduced. Reals replace doubles, so `Math.round` and `Math.floor` at exact boundaries follow real arithmetic, and a distance `d < r` is compared as `d² < r²`.
- The difficulty is always medium in the code; the model keeps it as a field and proves the formulas for every difficulty.
- `CONFIG.asteroidRates` is never read by the code and is not modelled.
- Repeated one-shot listeners (`once('pointerdown')`, `once('keydown-ESC')`) are not modelled; a placement click is a call of `AttemptPlace`.
- Right-click and ESC cancellation are the same `CancelPlacement`.
- The per-frame guard that skips the turret pass, the asteroid roll and shield regeneration while the run is stopped is not modelled: `UpdateTurrets`, `MaybeSpawnAsteroid` and `UpdateShieldRegen` can be called whether or not `state.running` holds, so the model does not show that nothing happens on those paths between runs.

## Findings

| source | as written | input that shows it | evidently intended | confidence | as-written member | corrected member |
|---|---|---|---|---|---|---|
| main.js:619-626 | `attemptBuyItem` records the purchase, then `createPlacementGhost` calls `cancelPlacement`, which clears it; `attemptPlace` then returns at once | 50 gems, buy a wall, click at (200, 200): 40 gems left and no wall | the ghost set-up clears an earlier placement before the new purchase is recorded, so the click places what was bought | high (not executed) | Game.Session.AttemptBuyItemAsWritten, Scenarios.LostPurchaseAsWritten | Game.Session.AttemptBuyItem, Scenarios.WallPurchase |
| main.js:268-269 | `scheduleNextWave` reads `s.debugShortWaves`, which nothing sets, so the configuration's `debugShortWaves` has no effect | `CONFIG.debugShortWaves = true`: waves still 300-600 s apart | the configuration's switch selects the 15-30 s interval | high (not executed) | Waves.WaveBoundsAsWritten | Waves.WaveBounds |
