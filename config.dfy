/** The static configuration object of the game (main.js:6-28) and the one
    rounding primitive the rules use. */
module Config {

  const Width: int := 1280
  const Height: int := 720

  /** Normal interval between waves, in seconds. */
  const WaveMinSec: nat := 300
  const WaveMaxSec: nat := 600
  /** The short interval meant for quick testing, and its switch. */
  const DebugShortWaves: bool := false
  const DebugMinSec: nat := 15
  const DebugMaxSec: nat := 30

  const StartingGems: int := 50
  const ShieldMax: real := 100.0
  /** Shield points regained per second. */
  const ShieldRegen: real := 6.0
  /** Seconds after the last damage before regeneration resumes. */
  const ShieldRegenDelay: real := 3.0
  const HullHits: int := 2
  const TurretCap: nat := 8

  datatype Difficulty = Easy | Medium | Hard

  /** Multipliers for enemy hp, enemy damage, spawn count and loot yield. */
  datatype Multipliers = Multipliers(hp: real, dmg: real, spawn: real, gems: real)

  function MultipliersOf(d: Difficulty): (m: Multipliers)
    ensures 0.8 <= m.hp <= 1.2 && 0.8 <= m.dmg <= 1.25
    ensures 0.9 <= m.spawn <= 1.15 && 0.9 <= m.gems <= 1.1
    ensures d == Medium ==> m == Multipliers(1.0, 1.0, 1.0, 1.0)
  {
    match d
    case Easy => Multipliers(0.8, 0.8, 0.9, 1.1)
    case Medium => Multipliers(1.0, 1.0, 1.0, 1.0)
    case Hard => Multipliers(1.2, 1.25, 1.15, 0.9)
  }

  /** JavaScript's Math.round: the nearest integer, halves rounded up. */
  function Round(x: real): (r: int)
    ensures x - 0.5 < r as real <= x + 0.5
  {
    (x + 0.5).Floor
  }

  /** Math.ceil on a real. */
  function Ceil(x: real): (r: int)
    ensures x <= r as real < x + 1.0
  {
    var f := x.Floor;
    if f as real == x then f else f + 1
  }
}
