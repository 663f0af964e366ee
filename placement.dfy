/** The shop catalogue and the spatial legality of a placement
    (main.js:611-663, 695-704). */
module Placement {
  import opened Common
  import opened Geometry
  import Config

  // ---------- Catalogue ----------

  /** The shop's items; `Other` stands for any name the catalogue lacks. */
  datatype Item = WallItem | Repair | TurretItem | ShipUp | NewShip | Other(name: string)

  /** The catalogue price; an unknown item costs nothing. */
  function Cost(item: Item): (c: nat)
    ensures c == 0 <==> item.Other?
    ensures c <= 100
    ensures item == WallItem ==> c == 10
    ensures item == Repair ==> c == 5
    ensures item == TurretItem ==> c == 50
    ensures item == ShipUp ==> c == 40
    ensures item == NewShip ==> c == 100
  {
    match item
    case WallItem => 10
    case Repair => 5
    case TurretItem => 50
    case ShipUp => 40
    case NewShip => 100
    case Other(_) => 0
  }

  /** A guarded debit of the gem balance: refused, leaving the balance as it
      is, when the balance is below the cost. */
  function Debit(balance: int, cost: nat): (r: Option<int>)
    ensures r.None? <==> balance < cost
    ensures r.Some? ==> r.value >= 0 && r.value + cost == balance
  {
    if balance < cost then None else Some(balance - cost)
  }

  // ---------- Validity ----------

  const Margin: real := 30.0
  /** Squared radii: 60 around the player, 40 around every wall. */
  const PlayerClearance2: real := 3600.0
  const WallSpacing2: real := 1600.0

  predicate InArena(p: Point) {
    Margin <= p.x <= Config.Width as real - Margin && Margin <= p.y <= Config.Height as real - Margin
  }

  /** The `ok` flag of the wall scan: no wall closer than 40 to `p`. */
  function ClearOfWalls(walls: seq<Point>, p: Point): (ok: bool)
    ensures ok <==> forall i :: 0 <= i < |walls| ==> Dist2(p, walls[i]) >= WallSpacing2
  {
    if |walls| == 0 then true
    else
      var last := |walls| - 1;
      var ok := ClearOfWalls(walls[..last], p);
      if Dist2(p, walls[last]) < WallSpacing2 then false else ok
  }

  /** isPlacementValid. The item being placed plays no part. */
  function PlacementValid(p: Point, player: Point, walls: seq<Point>): (ok: bool)
    ensures ok <==> InArena(p) && Dist2(p, player) >= PlayerClearance2 && ClearOfWalls(walls, p)
  {
    if !InArena(p) then false
    else if Dist2(p, player) < PlayerClearance2 then false
    else ClearOfWalls(walls, p)
  }

  /** isPlacementValid fails exactly when one of the three exclusion rules
      applies: outside the arena margin, within 60 of the player, or within
      40 of some wall. */
  lemma PlacementRejections(p: Point, player: Point, walls: seq<Point>)
    ensures !PlacementValid(p, player, walls) <==>
      || !InArena(p)
      || Dist2(p, player) < PlayerClearance2
      || exists i :: 0 <= i < |walls| && Dist2(p, walls[i]) < WallSpacing2
  {
  }

  /** Building more walls never makes a rejected point valid. */
  lemma MoreWallsNeverHelp(p: Point, player: Point, walls: seq<Point>, w: Point)
    requires PlacementValid(p, player, walls + [w])
    ensures PlacementValid(p, player, walls)
  {
  }

  // ---------- Repair ----------

  /** The repair search starts at 9999 and fixes a wall closer than 60. */
  const RepairSearch: Bound := Below(9999.0 * 9999.0)
  const RepairReach2: real := 3600.0
  const RepairAmount: int := 25
  const WallMaxHp: int := 100

  /** The wall a repair at `p` heals: the nearest, when it is closer than 60. */
  function RepairTarget(walls: seq<Point>, p: Point): (r: Option<nat>)
    ensures r.Some? ==> r.value < |walls| && Dist2(walls[r.value], p) < RepairReach2
    ensures r.Some? ==> forall j :: 0 <= j < |walls| ==> Dist2(walls[r.value], p) <= Dist2(walls[j], p)
    ensures r.Some? ==> forall j :: 0 <= j < r.value ==> Dist2(walls[r.value], p) < Dist2(walls[j], p)
    ensures r.None? <==> forall j :: 0 <= j < |walls| ==> Dist2(walls[j], p) >= RepairReach2
  {
    match Nearest(walls, p, RepairSearch)
    case Some(i) => if Dist2(walls[i], p) < RepairReach2 then Some(i) else None
    case None => None
  }

  /** A repair point must itself pass the placement check, which keeps it 40
      away from every wall: so the wall it heals is between 40 and 60 away. */
  lemma RepairRing(p: Point, player: Point, walls: seq<Point>, i: nat)
    requires PlacementValid(p, player, walls) && RepairTarget(walls, p) == Some(i)
    ensures WallSpacing2 <= Dist2(walls[i], p) < RepairReach2
  {
  }

  /** The hit points after a repair: 25 more, capped at 100. */
  function Repaired(hp: int): (r: int)
    requires 0 < hp <= WallMaxHp
    ensures hp < r <= WallMaxHp || r == hp == WallMaxHp
    ensures r <= hp + RepairAmount && (r == WallMaxHp || r == hp + RepairAmount)
  {
    if hp + RepairAmount < WallMaxHp then hp + RepairAmount else WallMaxHp
  }
}
