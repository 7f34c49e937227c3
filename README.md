# Scramble 1981: rocket enemy, checkpoints and session resets

A Dafny model of the sequential rules at the heart of a side-scrolling
Scramble clone:

- **`CommonApi.Pair`** — the mutable pair every game element uses as its
  position. `SetPair` writes both coordinates in one step; the single-element
  setters leave the other element alone; the getters read without changing
  anything (they carry no `modifies` clause).
- **`Enemy.Rocket`** — the rocket enemy's state machine. The fields are the
  position (a `Pair`), the flags `hit`, `moving` and `exploded`, the vertical
  speed, the two sprite cursors and the explosion counter. `Move` is proved
  against the pure transition `Enemy.Moved`. `CheckCollisionBullet` is the
  source's iterator loop, removing in place from a `BulletSet`. It is proved
  against `FirstCollision` and `RemoveAt`.
- **`CompactView.GameView`** — the view's session transitions. `SetStart`
  (back to the menu) and `RestartFromCheckPoint` act on the landscape, rocket
  and tank map X, the rocket and tank placements, lives, the ship's position,
  fuel and the two scores. The panels, the score store, the logic controller
  and the map controller appear only as fields. `ReturnToCheckPoint` is the
  backward scan of the stage-start table.

Modelling choices:

- The Java `float` vertical speed only ever holds 1.5 or 0. It is stored in
  half pixels (3 or 0). `(int)(y - speedY)` becomes `TruncateHalves(2*y -
  speed)`, which truncates toward zero as Java's cast does. As a result an
  unhit rocket climbs 2 pixels per tick, not 1.5 (`UnhitRocketClimb`). It
  reaches y = 0 on tick (y + 1) / 2 (`ExplodesAtTop`). Both facts hold for
  the Java code only while |y - 1.5| < 2^23; beyond that the float
  subtraction rounds (see "## Left out").
- `updatePosition(new PairImpl(x, y))` is modelled as `position.SetPair(x, y)`.
  The position is replaced as a whole, in one step.
- Collision (`hasCollided`) is `java.awt.Rectangle.intersects` on hit boxes
  built from position and size, without integer overflow.
- The bullet `Set` is a sequence; its iteration order is the sequence order.
- `get(1)` on a stage table with fewer than two entries throws. The model
  returns `Failure(IndexOutOfBounds(1, size))` instead.
- Values that come from classes not shown are given to the model:
  `Constants.LANDSCAPEX_SPEED` is `Move`'s parameter. The ship's starting
  coordinate, the number of starting lives, the fuel capacity, the stage table
  and the initial rocket and tank placements are fields of `Config`.
- `Scores.addScore(n)` is taken to add `n` to the cumulative score.
  `LandscapePanel.reset(p)` is taken to set the landscape's map X to `p`.
  `resetRockets`/`resetTanks` are taken to restore a fixed initial placement.

Behaviour of the code that the model keeps as written:

- The collision scan does not skip a rocket that has already exploded.
- `move` marks the rocket exploded only when y <= 0. Being hit only freezes
  the vertical speed.
- A restart puts the rockets' map X at 0 rather than at the checkpoint.

## Model

| member | source | states |
|---|---|---|
| CommonApi.Pair.SetPair | app/src/main/java/scramble/model/common/api/Pair.java:11-20 | both elements take the given values in one call |
| CommonApi.Pair.SetFirstElement | app/src/main/java/scramble/model/common/api/Pair.java:22-28 | first element takes the value; the second keeps its old value (frame: only `first` may change) |
| CommonApi.Pair.SetSecondElement | app/src/main/java/scramble/model/common/api/Pair.java:30-35 | second element takes the value; the first keeps its old value |
| CommonApi.Pair.GetFirstElement | app/src/main/java/scramble/model/common/api/Pair.java:37-42 | returns the first element; it may not modify the pair, so two reads agree |
| CommonApi.Pair.GetSecondElement | app/src/main/java/scramble/model/common/api/Pair.java:44-49 | returns the second element without modifying the pair |
| Enemy.TruncateHalves | app/src/main/java/scramble/model/enemy/RocketImpl.java:80-81 | the `(int)` cast of a half-pixel value: within half a pixel of it, toward zero on both signs |
| Enemy.NextFrame | app/src/main/java/scramble/model/enemy/RocketImpl.java:90-99 | an advanced cursor is always in [0, count), counts up by one and wraps to 0 at count |
| Enemy.IntIncrement | app/src/main/java/scramble/model/enemy/RocketImpl.java:149 | Java `int` post-increment: one more, or the wrap from the largest to the smallest `int` |
| Enemy.FirstCollision | app/src/main/java/scramble/model/enemy/RocketImpl.java:102-113 | None exactly when no bullet collides; otherwise the index of a colliding bullet with none colliding before it |
| Enemy.RemoveAt | app/src/main/java/scramble/model/enemy/RocketImpl.java:108 | iterator removal: one element fewer, the ones before and after keep their order, and the multiset loses exactly that element |
| Enemy.Rocket.constructor | app/src/main/java/scramble/model/enemy/RocketImpl.java:47-73 | a fresh rocket is at (x, y), cursors 0, not hit, not moving, not exploded, counter 0, speed 1.5 |
| Enemy.Rocket.Move | app/src/main/java/scramble/model/enemy/RocketImpl.java:75-87 | new state is `Moved(old state)`: speed frozen when hit, drift only while moving, exploded with counter 15 when y <= 0 |
| Enemy.Rocket.GetSprite | app/src/main/java/scramble/model/enemy/RocketImpl.java:89-94 | cursor becomes (cursor + 1) mod 5 and stays in [0, 5); returns that index |
| Enemy.Rocket.GetExplosionSprite | app/src/main/java/scramble/model/enemy/RocketImpl.java:96-100 | cursor becomes (cursor + 1) mod 4 and stays in [0, 4); returns that index |
| Enemy.Rocket.CheckCollisionBullet | app/src/main/java/scramble/model/enemy/RocketImpl.java:102-113 | true iff some bullet collides; if so exactly the first colliding one is removed and hit is set, else bullets and hit are unchanged |
| Enemy.Rocket.IsHit | app/src/main/java/scramble/model/enemy/RocketImpl.java:124-126 | returns the hit flag |
| Enemy.Rocket.SetHit | app/src/main/java/scramble/model/enemy/RocketImpl.java:128-130 | sets the hit flag and nothing else |
| Enemy.Rocket.TurnOnMove | app/src/main/java/scramble/model/enemy/RocketImpl.java:132-134 | sets `moving` and nothing else, so a second call changes nothing |
| Enemy.Rocket.IsExploded | app/src/main/java/scramble/model/enemy/RocketImpl.java:136-138 | returns the exploded flag |
| Enemy.Rocket.SetExploded | app/src/main/java/scramble/model/enemy/RocketImpl.java:140-142 | sets the exploded flag and nothing else |
| Enemy.Rocket.GetCounterForExplosion | app/src/main/java/scramble/model/enemy/RocketImpl.java:144-146 | returns the explosion counter |
| Enemy.Rocket.IncrementCounterForExplosion | app/src/main/java/scramble/model/enemy/RocketImpl.java:148-150 | returns the old counter and leaves it one larger (with Java `int` wrap at the top) |
| Enemy.Rocket.GetExplosionDuration | app/src/main/java/scramble/model/enemy/RocketImpl.java:152-154 | returns the duration 15 that `Move` writes into the counter |
| EnemyProperties.IdleRocketStaysPut | app/src/main/java/scramble/model/enemy/RocketImpl.java:79-82 | a rocket that is not moving keeps its position |
| EnemyProperties.HitFreezesSpeed | app/src/main/java/scramble/model/enemy/RocketImpl.java:76-78 | once hit (or once the speed is 0) the speed after a move is 0; it is never restored |
| EnemyProperties.HitRocketDriftsLevel | app/src/main/java/scramble/model/enemy/RocketImpl.java:76-82 | for any n ticks, a hit moving rocket keeps its y while x falls by n times the landscape speed |
| EnemyProperties.ExplodesExactlyAtTop | app/src/main/java/scramble/model/enemy/RocketImpl.java:83-86 | after a move ending at y <= 0 the rocket is exploded with counter 15 (re-set on every such move); ending at y > 0 leaves flag and counter unchanged |
| EnemyProperties.UnhitRocketClimb | app/src/main/java/scramble/model/enemy/RocketImpl.java:79-81 | with speed 1.5 and truncation, an unhit moving rocket rises 2 px per tick from y >= 2, from 1 to 0, and by 1 at or above the top |
| EnemyProperties.RisingRocket | app/src/main/java/scramble/model/enemy/RocketImpl.java:75-87 | for k ticks with 2k < y the rocket is at y - 2k, not newly exploded, counter unchanged |
| EnemyProperties.ExplodesAtTop | app/src/main/java/scramble/model/enemy/RocketImpl.java:75-87 | a rocket launched at y > 0 is at y = 0, exploded, with counter 15 after exactly (y + 1) / 2 ticks |
| EnemyProperties.AdvancedWithoutWrap | app/src/main/java/scramble/model/enemy/RocketImpl.java:90-92 | repeated advances count up by one each until they reach the frame count, then give 0 |
| EnemyProperties.CursorPeriod | app/src/main/java/scramble/model/enemy/RocketImpl.java:90-99 | a cursor returns to its start after exactly `count` advances (5 for flight, 4 for explosion) and not sooner |
| EnemyProperties.CollisionConsumesOneBullet | app/src/main/java/scramble/model/enemy/RocketImpl.java:102-113 | a hit consumes exactly one bullet; every other bullet stays in the collection |
| CompactView.GameView.SetStart | app/src/main/java/scramble/view/compact/GameView.java:295-321 | new session state is `AfterSetStart(old state)`: score banked, map X values 0, placements, lives, ship and fuel reset |
| CompactView.GameView.RestartFromCheckPoint | app/src/main/java/scramble/view/compact/GameView.java:328-341 | new session state is `AfterRestart(old state, p)`: landscape and tanks at p, rockets at 0, ship, fuel and placements reset |
| CompactView.GameView.ReturnToCheckPoint | app/src/main/java/scramble/view/compact/GameView.java:348-357 | the backward scan returns `Checkpoint(table, mapX)`; it has no modifies clause, so map X and table are unchanged |
| CompactViewProperties.CheckpointFromFound | app/src/main/java/scramble/view/compact/GameView.java:350-354 | the scan stops at the highest index whose entry is below map X |
| CompactViewProperties.CheckpointFromFallback | app/src/main/java/scramble/view/compact/GameView.java:350-356 | with no entry below map X at indices >= 2, the scan gives entry 1 |
| CompactViewProperties.CheckpointCharacterization | app/src/main/java/scramble/view/compact/GameView.java:348-357 | fails iff fewer than 2 entries; else the entry at the largest i >= 2 below map X (all later entries >= map X), or entry 1 when none, index 0 never consulted |
| CompactViewProperties.StageTableExample | app/src/main/java/scramble/view/compact/GameView.java:348-357 | table [0, 5000, 12000, 20000]: 13500 gives 12000; 100 and 0 give 5000, never the origin |
| CompactViewProperties.RestartAtCheckpointRewinds | app/src/main/java/scramble/view/compact/GameView.java:328-357 | when some stage after the first starts before map X, restarting at the found checkpoint moves the landscape strictly back |
| CompactViewProperties.SetStartBanksScore | app/src/main/java/scramble/view/compact/GameView.java:298-299 | current score becomes 0 and the cumulative score grows by exactly the old current score |
| CompactViewProperties.SetStartIdempotent | app/src/main/java/scramble/view/compact/GameView.java:295-321 | two menu resets in a row give the same state as one |
| CompactViewProperties.SetStartForgetsSession | app/src/main/java/scramble/view/compact/GameView.java:303-317 | after a menu reset nothing of the old session remains except the banked score total |
| CompactViewProperties.RestartKeepsLivesAndScores | app/src/main/java/scramble/view/compact/GameView.java:328-341 | a restart keeps lives and both scores; tank map X equals landscape map X = p; rocket map X is 0 |
| CompactViewProperties.RestartIdempotent | app/src/main/java/scramble/view/compact/GameView.java:328-341 | restarting twice at the same position gives the same state as once |

## Left out

- Swing presentation: the frame setup, panel layering (`mainPanel.removeAll`/`add`), the start menu and game-over overlays, and repaint. None of it holds game logic.
- Timers: the repaint timer, the per-panel start/stop/restart timers, the start menu timer started by `setStart`, and the five-second game-over timer with `showGameOverScreen`. They schedule events, and how they interleave with the panels' timers cannot be seen here. `isBossOutOfScreen` belongs to the rocket panel, which is not part of this model.
- Image loading, logging and the returned `BufferedImage`s: `GetSprite` and `GetExplosionSprite` return the frame index instead.
- `moveExplosion` is an empty method and is not modelled.
- The consumer of the explosion counter, which removes an exploded rocket, lives in the rocket panel. That panel is not part of this model.
- `GameElementImpl` is not part of this model. `Enemy.Rocket.Hitbox` stands for `getHitbox` (app/src/main/java/scramble/model/common/api/GameElement.java:28-33), recomputed from the position on every read. `Enemy.Intersects` and `Enemy.Collides` stand for `hasCollided`.
- `Scores`, `LogicController`, `MapController` and the panels are not part of this model. They appear only as fields of `GameView` and `Config`.
- Enemy.Rocket.Move: coordinates are unbounded integers. The model omits Java `int` wrap-around of `x - LANDSCAPEX_SPEED`. It also omits the float rounding of `y - speedY` once |y - 1.5| reaches 2^23: there a result with a .5 fraction is no longer a float, Java rounds it to the nearest even integer before the cast, and the model's truncation can be one pixel off (y = 8388611 gives 8388610 in Java and 8388609 in the model). `UnhitRocketClimb`, `RisingRocket` and `ExplodesAtTop` describe the Java code only below that bound.
- Enemy.Intersects: the overflow branches of `java.awt.Rectangle.intersects` (coordinates near the `int` limits) are not modelled.
- The `GameView` constructor builds Swing components, and its copy constructor copies panel references; neither is modelled. `CompactView.GameView.constructor` only sets up a session state for the model.
