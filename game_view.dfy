/**
 * The game's session transitions: returning to the start menu, restarting
 * from a checkpoint, and finding the checkpoint to restart from.  The panels
 * and controllers the view delegates to are plain fields of one record.
 */
module CompactView {
  import opened Wrappers
  import opened CommonApi

  /** Where an enemy or a fuel tank is placed in the level. */
  datatype Spawn = Spawn(x: int, y: int)

  /**
   * Level data and constants the view reads but never changes: the
   * stage-start table, the initial rocket and tank placements, the number of
   * lives a game starts with, the fuel bar's capacity and the ship's starting
   * coordinate (used for both x and y).
   */
  datatype Config = Config(
    stageStartingX: seq<int>,
    initialRockets: seq<Spawn>,
    initialTanks: seq<Spawn>,
    startingLives: int,
    fuelCapacity: int,
    starterPosition: int)

  /** The session state the view's transitions act on. */
  datatype SessionState = SessionState(
    mapX: int,
    rocketMapX: int,
    tankMapX: int,
    rockets: seq<Spawn>,
    tanks: seq<Spawn>,
    lives: int,
    shipX: int,
    shipY: int,
    fuel: int,
    currentScore: int,
    totalScore: int)

  /**
   * Return to the start menu: bank the current score into the cumulative
   * score and clear it, rewind the landscape, rockets and tanks to map X 0,
   * put rockets and tanks back in their initial placement, restore the
   * lives, the ship's starting position and a full fuel bar.
   */
  function AfterSetStart(c: Config, s: SessionState): SessionState {
    SessionState(
      mapX := 0, rocketMapX := 0, tankMapX := 0,
      rockets := c.initialRockets, tanks := c.initialTanks,
      lives := c.startingLives,
      shipX := c.starterPosition, shipY := c.starterPosition,
      fuel := c.fuelCapacity,
      currentScore := 0, totalScore := s.totalScore + s.currentScore)
  }

  /**
   * Restart at map X `restartPos`: the landscape and the tanks continue from
   * there, the rockets' map X is rewound to 0, rockets and tanks are put back
   * in their initial placement, the ship returns to its starting position
   * and the fuel bar is filled; lives and scores are kept.
   */
  function AfterRestart(c: Config, s: SessionState, restartPos: int): SessionState {
    s.(mapX := restartPos, rocketMapX := 0, tankMapX := restartPos,
       rockets := c.initialRockets, tanks := c.initialTanks,
       shipX := c.starterPosition, shipY := c.starterPosition,
       fuel := c.fuelCapacity)
  }

  /** The failure of a list read at an index outside the list. */
  datatype StageError = IndexOutOfBounds(index: int, size: int)

  /**
   * The checkpoint search from index `i` downward: the first entry strictly
   * below `mapX` among indices `i`, `i - 1`, ..., 2, and otherwise entry 1.
   */
  function CheckpointFrom(table: seq<int>, mapX: int, i: int): int
    requires 1 <= i < |table|
    decreases i
  {
    if i == 1 then table[1]
    else if table[i] < mapX then table[i]
    else CheckpointFrom(table, mapX, i - 1)
  }

  /**
   * The checkpoint to restart from when the landscape is at `mapX`; reading
   * entry 1 of a table with fewer than two entries fails.
   */
  function Checkpoint(table: seq<int>, mapX: int): Result<int, StageError> {
    if |table| < 2 then Failure(IndexOutOfBounds(1, |table|))
    else Success(CheckpointFrom(table, mapX, |table| - 1))
  }

  /** The game's main view, reduced to the session state it resets and reads. */
  class GameView {
    const config: Config
    /** The landscape panel's current map X. */
    var mapX: int
    /** The rocket panel's map X and its rockets. */
    var rocketMapX: int
    var rockets: seq<Spawn>
    /** The fuel tank panel's map X and its tanks. */
    var tankMapX: int
    var tanks: seq<Spawn>
    /** The logic controller's remaining lives. */
    var lives: int
    /** The spaceship's position. */
    var ship: Pair<int, int>
    /** The fuel bar's level. */
    var fuel: int
    /** The score store: the running game's score and the cumulative score. */
    var currentScore: int
    var totalScore: int

    ghost function State(): SessionState
      reads this, ship
    {
      SessionState(mapX, rocketMapX, tankMapX, rockets, tanks, lives,
                   ship.first, ship.second, fuel, currentScore, totalScore)
    }

    constructor (config: Config, s: SessionState)
      ensures this.config == config && fresh(ship)
      ensures State() == s
    {
      this.config := config;
      mapX, rocketMapX, tankMapX := s.mapX, s.rocketMapX, s.tankMapX;
      rockets, tanks := s.rockets, s.tanks;
      lives := s.lives;
      ship := new Pair(s.shipX, s.shipY);
      fuel := s.fuel;
      currentScore, totalScore := s.currentScore, s.totalScore;
    }

    /** Resets the session for the start menu. */
    method SetStart()
      modifies this, ship
      ensures ship == old(ship)
      ensures State() == AfterSetStart(config, old(State()))
    {
      totalScore := totalScore + currentScore;
      currentScore := 0;
      mapX := 0;
      rocketMapX := 0;
      tankMapX := 0;
      rockets := config.initialRockets;
      tanks := config.initialTanks;
      lives := config.startingLives;
      ship.SetPair(config.starterPosition, config.starterPosition);
      fuel := config.fuelCapacity;
    }

    /** Resets the session to continue from map X `restartPos`. */
    method RestartFromCheckPoint(restartPos: int)
      modifies this, ship
      ensures ship == old(ship)
      ensures State() == AfterRestart(config, old(State()), restartPos)
    {
      mapX := restartPos;
      ship.SetPair(config.starterPosition, config.starterPosition);
      fuel := config.fuelCapacity;
      rocketMapX := 0;
      rockets := config.initialRockets;
      tankMapX := mapX;
      tanks := config.initialTanks;
    }

    /**
     * Scans the stage-start table from its last index down to index 2 for an
     * entry strictly below the current map X, falling back to entry 1.
     */
    method ReturnToCheckPoint() returns (r: Result<int, StageError>)
      ensures r == Checkpoint(config.stageStartingX, mapX)
    {
      var table := config.stageStartingX;
      var size := |table|;
      var i := size - 1;
      while i > 1
        invariant i <= size - 1
        invariant size >= 2 ==> 1 <= i && CheckpointFrom(table, mapX, size - 1) == CheckpointFrom(table, mapX, i)
        invariant size < 2 ==> i == size - 1
        decreases i
      {
        if table[i] < mapX {
          return Success(table[i]);
        }
        i := i - 1;
      }
      if size < 2 {
        return Failure(IndexOutOfBounds(1, size));
      }
      r := Success(table[1]);
    }
  }
}
