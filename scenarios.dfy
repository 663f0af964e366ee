/** Whole-session scenarios: a purchase followed by a placement click, on a
    freshly created scene (main.js:611-626, 665-717). */
module Scenarios {
  import opened Geometry
  import Config
  import Placement
  import Entities
  import Game

  /** A wall bought through the handler as written is paid for, yet the
      click that follows builds nothing, wherever it lands. */
  method LostPurchaseAsWritten(p: Point) returns (gems: int, built: nat)
    ensures gems == Config.StartingGems - Placement.Cost(Placement.WallItem)
    ensures built == 0
  {
    var s := new Game.Session(15, 3, 30);
    s.AttemptBuyItemAsWritten(Placement.WallItem);
    s.AttemptPlace(p);
    gems, built := s.state.gems, |s.walls|;
  }

  /** With the placement kept, the same purchase and a click on a free spot
      builds one full-health wall there, for the catalogue price. */
  method WallPurchase() returns (gems: int, walls: seq<Entities.Wall>)
    ensures gems == Config.StartingGems - Placement.Cost(Placement.WallItem)
    ensures walls == [Entities.Wall(Point(200.0, 200.0), Placement.WallMaxHp)]
  {
    var s := new Game.Session(15, 3, 30);
    s.AttemptBuyItem(Placement.WallItem);
    assert s.player == Point(640.0, 360.0);
    s.AttemptPlace(Point(200.0, 200.0));
    gems, walls := s.state.gems, s.walls;
  }

  /** A click too close to the ship places nothing and refunds nothing. */
  method RejectedPlacement() returns (gems: int, placing: bool, built: nat)
    ensures gems == Config.StartingGems - Placement.Cost(Placement.TurretItem)
    ensures !placing && built == 0
  {
    var s := new Game.Session(15, 3, 30);
    s.AttemptBuyItem(Placement.TurretItem);
    assert s.player == Point(640.0, 360.0);
    s.AttemptPlace(Point(650.0, 360.0));
    gems, placing, built := s.state.gems, s.placing.Some?, |s.turrets|;
  }
}
