# A birthday arcade, modelled in Dafny

The game has three stages, chosen from a React shell (`App.tsx`):

- **The platformer.** The player runs and jumps through a procedurally generated office, dodging security guards and the boss's paper stacks. A scream into the microphone hurts the boss.
- **The ring-road race.** The player steers a car through traffic.
- **The bomb stage.** A grid arena of tables and partitions. The player blows partitions away, stuns and burns the enemies that patrol or chase, and walks from an exit door into a second room to reach the cake.

This project models the rule-bearing core of each stage and proves what the code promises about it.

- **Bomb stage** (`levels/level3`):
  - the room generator after the maze: doors, cleared corridors, the cake, the partition scanner and the partition list;
  - the collision predicate with bomb "ghosting" (a player may walk off a bomb it already touches, never onto one);
  - the bomb engine: charges and recharge timers, fuses, blasts, chain reactions, kills, ash and stun;
  - the enemy state machine: patrol, chase, stunned, grid line of sight, movement and spawning;
  - room set-up between rooms: door mirroring, player placement and the state reset;
  - the table and chair layout of the renderer.
- **Race** (`levels/level1`):
  - the phrase history;
  - the floating messages;
  - the particle pool;
  - the traffic spawn bounds;
  - the speed, steering and wall clamps;
  - the win distance;
  - the crash test.
- **Platformer** (`levels/level2`):
  - the collision test;
  - the non-repeating phrase pick;
  - the per-tick rules of `updateLevel2`: horizontal speed, guards, the boss's scream edge, paper stacks, hp and invulnerability;
  - the whole level generator: the spacing tracker, the air-layer placer, the decoration factory, the five biomes, the landmarks, the door safe zone and the background skyline.
- **Shell** (`App.tsx`):
  - `formatTime`;
  - the high-score rule;
  - the level handlers (game over, level complete, next level, start level);
  - the level-to-component mapping.

How the model is built:

- **Code that updates state stays imperative.** Stage state, generator trackers and layouts are Dafny classes whose methods say in `modifies` what they change. Loops keep their invariants.
- **Pure code is functions.** Collision tests, sight, decoration defaults and the clock text are functions with lemmas.
- **Randomness.** `Math.random()` is an oracle `rand: nat -> real` with values in [0, 1), read through a cursor that every method returns advanced past its draws.
- **Seeded noise.** The sine-based noise of the renderer is an oracle from cell to [0, 1).
- **Friction.** `Math.pow(FRICTION, timeScale)` is a parameter.
- **Integers are exact.** JavaScript's truncating `%` and `Math.floor` are written out where negative values can occur.

Two facts of the code that the model keeps on purpose:

- **Stunned enemies are harmless.** The stunned branch of the enemy tick returns before the 35 px contact test, so a stunned enemy never ends the game (`levels/level3/logic/EnemyLogic.ts:46-66`).
- **The vertical line-of-sight scan can hang.** When an enemy stands in the player's cell, the scan's step is 0, and it loops forever whenever the cell above is passable (`levels/level3/logic/EnemyLogic.ts:73-76`). The model reports this outcome as `Hangs` instead of looping:
  - `EnemyLogic.SharedCellHangs` exhibits it;
  - `EnemyLogic.UpdateEnemies` returns `hung`;
  - `Level3Physics.UpdateLevel3` then leaves the player in place.

Three more quirks of the code that the model keeps:

- **`GameStatus.INTRO`.** `handleNextLevel` and `handleMainStart` set `GameStatus.INTRO`, but the enum in `types.ts` has no such member. The model's `GameStatus` includes `Intro`.
- **The lounge cooler.** It is placed 10 px right of the x it is registered at (`levels/level2/generator/biomes/lounge.ts:83-89`).
- **The scream edge after an early return.** A game over or a boss defeat returns before `wasScreaming` is updated (`levels/level2/physics.ts:247, 373, 442`). The remembered scream is then the old one.

## Model

| member | source | states |
|---|---|---|
| BombLogic.PlaceBomb | levels/level3/logic/BombLogic.ts:16-60 | a bomb with a 120-frame fuse goes into the player's centre cell exactly when a charge is left and that cell is an interior non-table cell with no partition and no bomb; a charge is spent and a 180-frame recharge timer added, otherwise nothing changes; charges plus pending timers stay equal to the maximum, and bombs stay on distinct cells |
| BombLogic.FirstSoftAt | levels/level3/logic/BombLogic.ts:85 | findIndex: -1 exactly when no partition stands in the cell, otherwise the first index of one that does |
| BombLogic.Fuse | levels/level3/logic/BombLogic.ts:91-94 | the first bomb in a blasted cell has its fuse cut to 2 frames if it was longer; every other bomb is unchanged |
| BombLogic.ArmInArena | levels/level3/logic/BombLogic.ts:78-81 | an arm of the blast never reaches the outer wall or a table cell |
| BombLogic.ArmOnCross | levels/level3/logic/BombLogic.ts:74-76 | every cell an arm reaches lies on the cross of radius 1 around the bomb |
| BombLogic.ArmRemovesPartition | levels/level3/logic/BombLogic.ts:85-89 | an arm removes exactly the first partition of the cell it stops in, and only when one stands there |
| BombLogic.ArmFacts | levels/level3/logic/BombLogic.ts:73-96 | one arm reaches at most one cell, inside the arena, off the tables and on the cross, removes at most that cell's partition and only shortens fuses |
| BombLogic.BlastFacts | levels/level3/logic/BombLogic.ts:67-96 | the four arms together reach only arena cells on the cross, remove at most four partitions, and only shorten fuses |
| BombLogic.BlastArm | levels/level3/logic/BombLogic.ts:74-95 | the inner loop of one arm computes exactly the arm's cells, remaining partitions and bombs |
| BombLogic.Blast | levels/level3/logic/BombLogic.ts:67-96 | the forEach over the four arms: the blasted cells, the bomb's own cell first, and the partitions and bombs the arms leave |
| BombLogic.BurnPartition | levels/level3/logic/BombLogic.ts:111-135 | every enemy whose centre cell burns leaves exactly one ash pile of full life in a blasted cell, every other enemy survives, and nothing else |
| BombLogic.Incinerate | levels/level3/logic/BombLogic.ts:111-135 | the backward kill loop yields exactly the survivors in order and the ash piles of the burnt enemies |
| BombLogic.DetonateOn | levels/level3/logic/BombLogic.ts:65-156 | detonate: the blast's partitions and fuses, the game-over call exactly when the player's cell burns, one explosion with the blasted cells, the burnt enemies turned to ash, and the survivors within 3 cells stunned |
| BombLogic.Detonate | levels/level3/logic/BombLogic.ts:65-156 | the same effects written into the stage state |
| BombLogic.DetonatedIsDetonation | levels/level3/logic/BombLogic.ts:65-156 | the effects of a detonation are a single function of the field and the bomb, whatever the player's cell |
| BombLogic.KeptStayDistinct | levels/level3/logic/BombLogic.ts:163-170 | bombs that stay on the field after a frame never share a cell when they did not before |
| BombLogic.DetonateAndRemove | levels/level3/logic/BombLogic.ts:166-169 | a detonation inside the bomb loop followed by the splice: the other bombs keep their order and can only have their fuses cut, and one explosion centred on the bomb is appended |
| BombLogic.TickBombs | levels/level3/logic/BombLogic.ts:163-170 | every bomb burns timeScale of its fuse; the final field is the value-level loop Ticked; every old bomb is either kept or fired, exactly once, and no bomb fires twice; the bombs left are old bombs in order with a positive fuse at least timeScale shorter; every fired bomb produced exactly one new explosion at its cell; game over exactly when a new explosion covers the player's cell |
| BombLogic.TickBomb | levels/level3/logic/BombLogic.ts:164-169 | one iteration of the bomb loop is exactly TickStep: the fuse is cut by timeScale, and a spent bomb detonates and is spliced out |
| BombLogic.FadeExplosions | levels/level3/logic/BombLogic.ts:173-179 | no explosion left has life 0 or less, and none is added |
| BombLogic.FadeExplosionsSound | levels/level3/logic/BombLogic.ts:173-179 | every explosion left is an old one faded by 0.02 per unit of time |
| BombLogic.FadeExplosionsKeeps | levels/level3/logic/BombLogic.ts:173-179 | every explosion with more life than this frame's fade is kept, faded |
| BombLogic.FadeExplosionsInPlace | levels/level3/logic/BombLogic.ts:173-179 | the backward splice loop computes exactly FadeExplosions |
| BombLogic.Recharged | levels/level3/logic/BombLogic.ts:183-189 | every timer left is positive and was an old timer run down by timeScale |
| BombLogic.RechargedKeeps | levels/level3/logic/BombLogic.ts:183-189 | every timer longer than the frame stays pending, run down by timeScale |
| BombLogic.Recharge | levels/level3/logic/BombLogic.ts:182-190 | timers run only while a charge is missing; each timer that runs out returns exactly one charge; a balanced count stays balanced |
| BombLogic.UpdateBombsAndExplosions | levels/level3/logic/BombLogic.ts:161-191 | partitions, bombs, enemies and ash piles are exactly those of the bomb loop Ticked; the explosions are the old ones plus one blast per fired bomb, centred on it, then faded; kept and fired bombs partition the old ones; the recharge as in Recharge; bombs stay on distinct cells |
| EnemyLogic.PassableMeansFree | levels/level3/logic/EnemyLogic.ts:14-27 | a cell is passable for an enemy exactly when it is inside the arena, not a table, and has no partition and no bomb |
| EnemyLogic.ScanOutcome | levels/level3/logic/EnemyLogic.ts:74-76 | the scan sees the player exactly when the two positions differ and every cell strictly between is passable; it never ends exactly when the positions coincide and the cell before is passable |
| EnemyLogic.ScanLine | levels/level3/logic/EnemyLogic.ts:72-76 | the scan loop ends with ScanOutcome, reporting the endless case instead of looping |
| EnemyLogic.SightOf | levels/level3/logic/EnemyLogic.ts:69-119 | an enemy sees the player only along its column or row, at most 3 cells away and with every cell between passable; the scan hangs exactly on a shared cell whose upper neighbour is passable |
| EnemyLogic.StunTick | levels/level3/logic/EnemyLogic.ts:46-52 | a stunned enemy only counts its stun down and wakes on patrol when it reaches 0 |
| EnemyLogic.AfterSight | levels/level3/logic/EnemyLogic.ts:81-123 | an enemy that sees the player chases it and faces it; one that does not ends the check on patrol with its facing kept |
| EnemyLogic.Realign | levels/level3/logic/EnemyLogic.ts:127-144 | an enemy moving along a row is pulled toward its row's centre line by at most 2.5 per unit of time without overshooting, and one moving along a column likewise toward its column's centre line; the other coordinate is untouched |
| EnemyLogic.ValidDirs | levels/level3/logic/EnemyLogic.ts:163-168 | exactly the directions whose neighbour cell is passable |
| EnemyLogic.Advance | levels/level3/logic/EnemyLogic.ts:146-173 | the enemy moves one step when the cell ahead of its leading edge is passable; otherwise it stays, falls back to patrol and, if any neighbour is passable, turns toward one |
| EnemyLogic.TickRules | levels/level3/logic/EnemyLogic.ts:46-173 | a stunned enemy is harmless; any other catches the player within 35 px; the scan hangs exactly on a shared cell with a passable cell above; an enemy ends a tick chasing only if it saw the player and faces them |
| EnemyLogic.SharedCellHangs | levels/level3/logic/EnemyLogic.ts:70-76 | an active enemy sharing the player's cell, with a passable cell above it, sends the vertical scan into an endless loop |
| EnemyLogic.TickEnemy | levels/level3/logic/EnemyLogic.ts:39-174 | one enemy's tick, with the scan run as a loop, gives exactly Tick |
| EnemyLogic.TickAll | levels/level3/logic/EnemyLogic.ts:39-174 | the forEach hangs exactly when some enemy's scan hangs; then the first enemy to hang is named and the game-over call was made exactly when one of the enemies up to it caught the player; otherwise every enemy is ticked in place and the game-over call is made exactly when some enemy catches the player |
| EnemyLogic.FadeAsh | levels/level3/logic/EnemyLogic.ts:177-185 | every ash pile left has positive life and is an old pile faded by 0.01 per unit of time |
| EnemyLogic.FadeAshInPlace | levels/level3/logic/EnemyLogic.ts:177-185 | the backward splice loop computes exactly FadeAsh |
| EnemyLogic.UpdateEnemies | levels/level3/logic/EnemyLogic.ts:32-186 | updateEnemies: TickAll's facts on the stage state, including the game-over call up to the first enemy to hang, then the ash fade; a hang leaves enemies and ash as they were |
| EnemyLogic.SpawnedEnemyCell | levels/level3/logic/EnemyLogic.ts:234-245 | a spawned enemy is centred in the cell it was placed in |
| EnemyLogic.SpawnPlan | levels/level3/logic/EnemyLogic.ts:205-247 | at most 3 enemies and 1000 attempts, fewer than 3 only once all attempts are spent; every enemy stands on a free non-table cell without bomb, at least 5 cells from the player, patrolling at speed 1.5, and any two are at least 4 cells apart |
| EnemyLogic.SpawnEnemiesForRoom | levels/level3/logic/EnemyLogic.ts:191-248 | a fresh room has no ash and at most 3 enemies, each well spawned around the player's cell and every two at least 4 cells apart (squared cell distance 16 or more); at most 1000 attempts are made, and fewer than 3 enemies are left only once all 1000 were used |
| EnemyLogic.StunIfNear | levels/level3/logic/EnemyLogic.ts:252-270 | an enemy within the radius is stunned for 120 frames and otherwise unchanged; one outside it is untouched |
| EnemyLogic.StunEnemiesInRadius | levels/level3/logic/EnemyLogic.ts:250-280 | every enemy goes through StunIfNear in place, and the player comments exactly when an enemy in the radius was not already stunned |
| Level3Physics.Hitbox | levels/level3/physics.ts:17-21 | the player's hitbox is 24 x 24 px, inset 8 px from the sprite's sides |
| Level3Physics.PartitionRect | levels/level3/physics.ts:94-102 | a vertical partition is a 14 px column through its tile, a horizontal one a full-width 22 px band |
| Level3Physics.IsColliding | levels/level3/physics.ts:42-111 | the nested row and column loops report a collision exactly when some cell under the target hitbox blocks: a door never, a bomb unless the player already touches its tile, a table, a partition or the arena wall when the target overlaps it |
| Level3Physics.ScanCoversHitbox | levels/level3/physics.ts:55-64 | the scanned rows and columns include every tile the target hitbox overlaps |
| Level3Physics.WallTileCollides | levels/level3/physics.ts:107 | a target hitbox over an arena-wall tile that is not a door always collides |
| Level3Physics.BombTileBlocksFromOutside | levels/level3/physics.ts:68-81 | a bomb tile blocks a player who is not already touching it |
| Level3Physics.BombTileLetsOut | levels/level3/physics.ts:75-81 | a player already touching a bomb's free floor tile can walk off it |
| Level3Physics.DoorNeverBlocks | levels/level3/physics.ts:65 | a door cell never blocks, whatever lies on it |
| Level3Physics.Steer | levels/level3/physics.ts:24-30 | arrow keys with priority left, right, up, down: exactly one axis moves by the speed when an arrow is held, and the facing matches the sign of the move |
| Level3Physics.AlignStep | levels/level3/physics.ts:119 | the re-centring step goes toward the lane centre, by at most 3 per unit of time and never past it |
| Level3Physics.Move | levels/level3/physics.ts:113-135 | the player re-centres across its direction of travel, then takes the step if the target is free, as Stepped describes |
| Level3Physics.SteppedAlignsWithoutOvershoot | levels/level3/physics.ts:114-131 | re-centring never moves the player more than 3 per unit of time nor past the lane centre |
| Level3Physics.SteppedHorizontallyAvoidsWallsAndBombs | levels/level3/physics.ts:123-124 | a horizontal step taken never ends over an arena-wall tile except through a door, nor enters a bomb tile the player did not touch before |
| Level3Physics.SteppedVerticallyAvoidsWallsAndBombs | levels/level3/physics.ts:133-134 | a vertical step taken never ends over an arena-wall tile except through a door, nor enters a bomb tile the player did not touch before |
| Level3Physics.FirstExit | levels/level3/physics.ts:139 | the first exit door in the list, or none exactly when there is no exit door |
| Level3Physics.OnCakeCellReachesIt | levels/level3/physics.ts:147-156 | in a later room, a player whose centre is in the cake's cell is within 64 px of the cake and completes the room |
| Level3Physics.MoveAndCheckGoal | levels/level3/physics.ts:113-157 | the aligned move changes only the player's position, and completion is reported exactly when the player reached the goal: the exit tile in room 1, the cake afterwards |
| Level3Physics.ReadInput | levels/level3/physics.ts:23-35 | the player faces the key's direction and animates while moving, and nothing else of it changes; a bomb is added on the player's cell, with a full fuse, costing one charge and starting one recharge timer, exactly when space is held and a bomb may be placed there; otherwise bombs, charges and timers are unchanged; nothing else of the field changes |
| Level3Physics.UpdateObjects | levels/level3/physics.ts:37-39 | the bomb update, then the enemy update, through the field between them (BombsUpdated, then EnemiesUpdated): the fired bombs' blasts are appended and faded, partitions, bombs, enemies and ash are those of the bomb fold; enemies then tick in place, or stay as they were when a scan hangs; the game-over call is made exactly when a blast covers the player's cell or an enemy (up to the first one to hang) reaches the player; recharge timers run down and charges stay balanced |
| Level3Physics.UpdateLevel3 | levels/level3/physics.ts:6-158 | one frame: the input's facing and bomb placement, then the objects update on that field as ObjectsUpdated states (game over exactly when a blast or an enemy reaches the player), then the aligned move and goal check; a hung enemy update leaves the player in place and completes nothing; otherwise completion is exactly ReachedGoal; charges stay balanced and bombs on distinct cells |
| Level3Map.EntryDoor | levels/level3/generator/map.ts:24 | the entry is the forced door with its kind set to entry, or the left door on row 1 when none is forced |
| Level3Map.ExitCandidates | levels/level3/generator/map.ts:35-59 | the candidate list holds exactly the exit spots more than 8 cells from the entry: in the first room the lower right column and the right half of the bottom row; later every border cell off the corners except columns 6 to 10 of the top and bottom rows |
| Level3Map.FirstRoomHasCandidates | levels/level3/generator/map.ts:41-48 | the first room always has a candidate, so its fallback exit is never used |
| Level3Map.PickExit | levels/level3/generator/map.ts:61 | the exit is one of the candidates, or the fallback door on the right when there is none |
| Level3Map.FillFromMaze | levels/level3/generator/map.ts:13-21 | the grid holds the maze's value at every cell |
| Level3Map.ClearEntry | levels/level3/generator/map.ts:27-31 | the four cells in from the entry's side are opened and every other cell keeps its value |
| Level3Map.ClearExit | levels/level3/generator/map.ts:64-68 | the two cells in from the exit's side are opened and every other cell keeps its value |
| Level3Map.FarthestTable | levels/level3/generator/map.ts:70-79 | the argmax loop returns a table cell at the greatest distance, the first in row-major order among equals |
| Level3Map.FarthestInRow | levels/level3/generator/map.ts:72-78 | after a row of table cells the best cell is at least as far as every table cell up to that row and strictly farther than every cell before it |
| Level3Map.ConsiderTable | levels/level3/generator/map.ts:73-77 | a table cell replaces the best only when strictly farther, so the best stays the first among the farthest |
| Level3Map.FindCake | levels/level3/generator/map.ts:69-80 | the cake goes on the table cell farthest from the entry, the first in row-major order on a tie |
| Level3Map.ScanRow | levels/level3/generator/map.ts:83-101 | the scanner changes only its own odd row, and only marks open, even-column cells away from the entry, the doors and the cake, each after a run of at least 3 open cells |
| Level3Map.Scan | levels/level3/generator/map.ts:82-102 | over the whole grid, every cell is either unchanged or an open, allowed cell newly marked |
| Level3Map.WellPlacedIsNotTable | levels/level3/generator/map.ts:112-113 | a converted partition never stands on a table cell |
| Level3Map.ToSoftBlocks | levels/level3/generator/map.ts:104-122 | the partitions are exactly the marked bridge cells of the arena not next to a door, vertical on even columns and horizontal on even rows, in row-major order |
| Level3Map.ConvertCell | levels/level3/generator/map.ts:107-120 | a marked bridge cell not next to a door becomes one well-placed partition after all earlier ones; any other cell adds nothing |
| Level3Map.RowMajorDistinct | levels/level3/generator/map.ts:105-106 | partitions listed in row-major order stand on distinct cells |
| Level3Map.GenerateLevelMap | levels/level3/generator/map.ts:7-125 | the entry door comes first; the last room gets the farthest-table cake and no exit; other rooms get one exit from the candidates and no cake; the scanned grid is the maze with the door corridors carved; the partitions are exactly the well-placed bridge cells the scan marks away from the doors, each on a distinct cell and in row-major order; of equally far tables the cake takes the first in row-major order |
| Level3Types.Level3State.constructor | levels/level3/Level3.tsx:35-56 | the stage starts with the player one tile plus 10 px in from the top-left corner facing down and standing still, no enemies, blocks, doors, bombs, fire or ash, two of two bomb charges with no recharge pending, in room 1 without a cake |
| Level3Room.MirrorDoor | levels/level3/Level3.tsx:59-70 | the entry of the next room is the previous exit point-mirrored through the arena's centre (column and row each summing to the last index) and its side is read off the border it lands on, column 0 taking precedence, then the last column, the top row and the bottom row |
| Level3Room.MirrorOfExit | levels/level3/Level3.tsx:61-69 | an exit on the outer ring away from the corners mirrors to an entry on the opposite side, which the map generator can clear, and mirroring twice gives back the exit's cell |
| Level3Room.MirrorClearable | levels/level3/Level3.tsx:61-69 | any door on the outer ring, corners included, mirrors to an entry the map generator accepts |
| Level3Room.ForcedEntry | levels/level3/Level3.tsx:59-70 | a room is forced to an entry exactly when a previous exit is given, and that entry is the mirrored exit |
| Level3Room.LaneCentreInCell | levels/level3/Level3.tsx:89-103 | a sprite placed at the centring offset of a cell has its centre inside that cell |
| Level3Room.PlacedAtEntry | levels/level3/Level3.tsx:86-105 | the player is put in the cell one tile in from the entry (column 1, the second-to-last column, row 1 or the second-to-last row by the entry's side), facing into the room, with the walking flag and frame kept |
| Level3Room.InitRoom | levels/level3/Level3.tsx:58-111 | a new room replaces blocks, doors, room number and cake, clears bombs, fire and ash, keeps the bomb charges, starts with the (forced) entry door, has every exit on the outer ring, holds the cake exactly in the last room and otherwise one exit, places every partition away from doors, puts the player inside the entry and spawns at most the spawn count of enemies, each on a free cell away from the player and every two at squared cell distance 16 or more; the renderer's static cache is left cleared |
| Level3Room.BuildRoom | levels/level3/Level3.tsx:59-72 | the room behind a border exit starts with the mirrored entry, has every exit on the outer ring, holds the cake exactly in the last room, otherwise one exit, and places every partition away from doors |
| Level3Room.ExitOnBorder | levels/level3/generator/map.ts:35-61 | every exit the map generator can choose, its fallback included, stands on the outer ring |
| Level3Room.ExitAt | levels/level3/Level3.tsx:176 | the door found is an exit on the given cell from the list; when none is found, no exit of the list stands on that cell |
| Level3Room.HandleExitReached | levels/level3/Level3.tsx:159-211 | in room 1 the second room is built behind the exit under the player's centre (the default entry when there is none), holds the cake, and the render cache is cleared; in room 2 the stage is reported finished and nothing changes; in any other room nothing changes |
| Level3Render.NextFreeVariant | levels/level3/render.ts:46-47 | the serving settled on is free of the left and top neighbours' variants and every value passed over, counting up modulo 8 from the noise-derived start, is taken by one of them |
| Level3Render.VariantAt | levels/level3/render.ts:41-43 | a neighbour's variant is read exactly when that cell has one recorded, and it is the recorded value |
| Level3Render.GenerateTables | levels/level3/render.ts:30-60 | one table per table cell (both coordinates even, inside the ring), each at its cell's corner with sort key 4 px above the tile's bottom, in strict row-major order, and tables two cells apart in a row or a column never share a serving variant |
| Level3Render.AddTableKeepsOrder | levels/level3/render.ts:40-57 | appending a table after all others with a variant free of its recorded left and top neighbours keeps the row-major order and the neighbour rule |
| Level3Render.PlaceTable | levels/level3/render.ts:40-57 | the table of a table cell is placed after all earlier ones, keeps the row-major order, the neighbour rule and the recorded variants, and covers its own cell |
| Level3Render.AppendKeepsRowMajor | levels/level3/render.ts:36-57 | a table appended after all others keeps the row-major order |
| Level3Render.AppendKeepsNeighboursDiffer | levels/level3/render.ts:40-48 | a table appended with a variant free of its recorded left and top neighbours keeps neighbouring tables on different variants |
| Level3Render.AddTableRecorded | levels/level3/render.ts:48 | recording the new table's variant keeps the map in step with the list of tables |
| Level3Render.AppendKeepsTables | levels/level3/render.ts:50-57 | pushing a table covers its cell and keeps every cell already covered |
| Level3Render.ChairsAt | levels/level3/render/Table.ts:140-153 | a table gets no chairs when its noise is at most 0.2, all four sides (right, left, top, bottom, in that order) above 0.8, and otherwise at most four chairs on distinct sides, each around this table |
| Level3Render.GenerateChairs | levels/level3/render/Table.ts:128-158 | the chairs come out column by column, then row by row, as the per-table rule gives them |
| Level3Render.ColumnChairsAroundTables | levels/level3/render/Table.ts:133-153 | every chair of one column stands around a table cell of that column |
| Level3Render.ChairsAroundTables | levels/level3/render/Table.ts:132-156 | every generated chair stands at the centre of a table cell, 28 px out, in one of the four orientations |
| Level3Render.StaticCache.constructor | levels/level3/render.ts:14-16 | the renderer starts with no pre-drawn arena, no chairs and no tables cached |
| Level3Render.StaticCache.Clear | levels/level3/render.ts:21-25 | after clearing, the next frame redraws the arena and regenerates chairs and tables |
| Level1Utils.Available | levels/level1/utils.ts:11 | the phrases left are exactly those of the list that are not in the history |
| Level1Utils.PickPhrase | levels/level1/utils.ts:11-16 | the phrase drawn is from the list, and it is not a recent one whenever some phrase of the list is not recent |
| Level1Utils.Remembered | levels/level1/utils.ts:19-20 | the history ends with the new phrase, is the old history plus the phrase with the oldest entries dropped, and holds at most two entries when it held at most two before |
| Level1Utils.GetNextPhrase | levels/level1/utils.ts:9-23 | the phrase returned is the one drawn from the non-recent phrases (all of them when every phrase is recent) and the shared history records it, keeping the last two |
| Level1Utils.NoImmediateRepeat | levels/level1/utils.ts:11-20 | while some phrase is not recent, two draws in a row never give the same phrase |
| Level1Utils.AddFloatingMessage | levels/level1/utils.ts:28-41 | exactly one message with the given text and position at full life is appended and earlier messages are unchanged |
| Level1Physics.RacerState.constructor | levels/level1/Level1.tsx:40-86 | the racer starts centred on the road at the initial speed with no lateral motion, no traffic, no distance or score, not in the outro, and with 200 inactive particle slots |
| Level1Physics.FirstInactive | levels/level1/physics.ts:18-32 | the slot found is inactive and every lower slot is active; -1 means every slot is active |
| Level1Physics.SpawnParticle | levels/level1/physics.ts:9-33 | the lowest inactive slot is reactivated with the given position, velocity, size and life, no other slot changes, and a full pool is left as it is |
| Level1Physics.FirstInactiveIs | levels/level1/physics.ts:18-32 | the first inactive slot is the one with every lower slot active and itself inactive |
| Level1Physics.StepParticle | levels/level1/physics.ts:238-244 | an inactive slot is untouched; an active one moves by its velocity, grows by 0.3, loses 0.04 life per frame and stays active exactly while its life is positive |
| Level1Physics.UpdateParticles | levels/level1/physics.ts:237-245 | every slot of the pool is stepped in place by the per-particle rule |
| Level1Physics.SpentParticleDeactivates | levels/level1/physics.ts:243-244 | a slot whose life runs out in this frame is switched off |
| Level1Physics.EaseToward | levels/level1/physics.ts:150 | easing part of the way toward a target lands between the value and the target |
| Level1Physics.OutroEased | levels/level1/physics.ts:149-151 | in the outro the speed moves toward 10 without passing it |
| Level1Physics.SpeedAfter | levels/level1/physics.ts:193-224 | accelerating never raises the speed above MAX_SPEED and never lowers it; braking never takes it below MIN_SPEED and never raises it; coasting moves it toward INITIAL_SPEED without overshooting; input is ignored in the outro |
| Level1Physics.SpeedStaysInRange | levels/level1/physics.ts:193-224 | outside the outro a speed within [MIN_SPEED, MAX_SPEED] stays there |
| Level1Physics.UpdateSpeed | levels/level1/physics.ts:149-224 | the new speed is the outro easing followed by the throttle, brake or friction rule; the braking counter grows only while braking and resets on throttle or coasting |
| Level1Physics.Clamp | levels/level1/physics.ts:321 | the value is clamped into [-bound, bound], unchanged inside and saturated outside |
| Level1Physics.SteerVelocity | levels/level1/physics.ts:299-321 | the lateral velocity always ends in [-4.8, 4.8]; with no steering (or in the outro) it is the friction-scaled velocity whenever that is in range |
| Level1Physics.Steer | levels/level1/physics.ts:297-322 | the lateral velocity becomes the steering rule's, the car moves by it, and the turn counter grows while a key is held outside the outro and resets otherwise |
| Level1Physics.Drift | levels/level1/physics.ts:322 | the car moves sideways by its lateral velocity times the frame scale |
| Level1Physics.HandleWalls | levels/level1/physics.ts:325-334 | afterwards the car lies within [0, ROAD_WIDTH - PLAYER_WIDTH]; a car past a wall is put back on it with its lateral velocity reversed and halved; one message is added exactly when a wall is touched fast enough after the cooldown has run out, and then the cooldown restarts at 60 |
| Level1Physics.DistanceDelta | levels/level1/physics.ts:275-279 | the distance of one frame is never negative and at the initial speed covers 5000 in 60 seconds |
| Level1Physics.AdvanceDistance | levels/level1/physics.ts:272-295 | before the outro the distance and score grow by the frame's distance and the outro starts exactly when the distance reaches WIN_DISTANCE; in the outro the car drives off and the level completes once it is 100 px past the top |
| Level1Physics.CountNearSpawn | levels/level1/physics.ts:66-74 | the number of cars near the spawn line is at most the number of cars |
| Level1Physics.LaneCheck | levels/level1/physics.ts:65-82 | a lane is blocked exactly when some car is in it within the gap of the spawn line, and the count of cars near the spawn line is exact |
| Level1Physics.SpawnTraffic | levels/level1/physics.ts:38-112 | no car is added while the start delay runs or in the outro (the delay runs down) or once 12 cars are on the road; otherwise at most one car is appended, in a lane of the shuffled order, at the spawn line, only while fewer than two cars are near the spawn line and no car blocks that lane |
| Level1Physics.FindCollision | levels/level1/physics.ts:429-440 | the crash is reported exactly when some car's padded box overlaps the player's |
| Level1Physics.SideBySideNeverHits | levels/level1/physics.ts:433-434 | a car whose x differs from the player's by 38 px or more never hits it |
| Level1Physics.AdjacentLanesNeverHit | levels/level1/physics.ts:430-434 | cars centred in neighbouring lanes never overlap |
| Level2GenState.GeneratorState.constructor | levels/level2/generator/state.ts:3-6 | every tracker starts at x = -2000 |
| Level2GenState.GeneratorState.Reset | levels/level2/generator/state.ts:8-13 | every tracker is put back to x = -2000 |
| Level2GenState.GeneratorState.RegisterClock | levels/level2/generator/state.ts:23 | the clock tracker becomes x and the other trackers are unchanged |
| Level2GenState.GeneratorState.RegisterAc | levels/level2/generator/state.ts:32 | the AC tracker becomes x and the other trackers are unchanged |
| Level2GenState.GeneratorState.RegisterEbox | levels/level2/generator/state.ts:41 | the electric-box tracker becomes x and the other trackers are unchanged |
| Level2GenState.GeneratorState.RegisterCooler | levels/level2/generator/state.ts:45 | the cooler tracker becomes x and the other trackers are unchanged |
| Level2GenState.AcAndEboxExclusive | levels/level2/generator/state.ts:27-41 | once an AC (an electric box) is registered at x, no electric box (AC) may be placed within 400 px of x |
| Level2GenState.FreshStateAllowsAll | levels/level2/generator/state.ts:8-44 | right after a reset every kind may be placed anywhere right of x = -1200 |
| Level2GenState.ClockSpacingHolds | levels/level2/generator/state.ts:18-23 | a clock allowed by the rule stands more than 800 px right of every clock registered before it |
| Level2Entities.RandomItem | levels/level2/generator/entities.ts:4 | the item picked is an element of the non-empty list |
| Level2Entities.VariantDraws | levels/level2/generator/entities.ts:7-19 | createDecoration draws once exactly when no variant is given and the kind picks one at random, and otherwise not at all |
| Level2Entities.CreateDecoration | levels/level2/generator/entities.ts:6-21 | the decoration has the given position and kind, keeps a given variant, and otherwise gets a default in its kind's range (papers and floor plants 0-3, plants and computers 0-2, trashcans 1 or 3, clocks 0-11, every other kind 0) |
| Level2Entities.Decorate | levels/level2/generator/entities.ts:6-21 | the decoration is createDecoration's with the stream's next draw, and the stream moves past exactly the draws it made |
| Level2Entities.UndrawnVariantIsZero | levels/level2/generator/entities.ts:7-18 | a kind that draws nothing gets variant 0 whatever the roll |
| Level2AirLayer.Tier3Candidates | levels/level2/generator/rules/air-layer.ts:38-41 | the tier-3 candidates always start with a plain platform and hold an AC exactly when an AC may be placed and an electric box exactly when one may be placed |
| Level2AirLayer.AirProposal | levels/level2/generator/rules/air-layer.ts:24-61 | the proposal is centred on centerX; on tier 3 it stands 260 px above the floor as a small platform, an AC or an electric box (each only when allowed) with its catalogue size; on tier 4 it is a medium or large plain platform 360 px above the floor |
| Level2AirLayer.PreferenceDecidesTier | levels/level2/generator/rules/air-layer.ts:28 | a tier-3 preference always gives tier 3 and a tier-4 preference never does, whatever the roll |
| Level2AirLayer.NoOverlapIsClear | levels/level2/generator/rules/air-layer.ts:66-79 | the overlap test fails exactly when the proposal keeps 10 px clear of every platform within 10 px of its height |
| Level2AirLayer.TryGenerateAirLayer | levels/level2/generator/rules/air-layer.ts:18-92 | two draws are made; the proposal is appended exactly when nothing on its tier is in the way, and then it is clear of its tier and only an appended AC or electric box is registered at centerX; otherwise nothing changes; no kind other than the air kinds changes its count |
| Level2AirLayer.AirLayerKinds | levels/level2/generator/rules/air-layer.ts:38-56 | an air layer only ever proposes a plain platform, an AC or an electric box |
| Level2Background.Ceil | levels/level2/generator/background.ts:7 | Math.ceil: the least integer not below x |
| Level2Background.StepCount | levels/level2/generator/background.ts:24-26 | the number of steps a stepping loop takes from start by step before it reaches the limit: the last value taken is below the limit and the next one reaches it |
| Level2Background.StepCountUnique | levels/level2/generator/background.ts:24-26 | any loop count that stops at the first value reaching the limit is exactly that step count |
| Level2Background.WindowRow | levels/level2/generator/background.ts:26 | one row has a window every 10 px from 6 px in to 6 px short of the far side, each lit exactly when its own draw is below the lit probability |
| Level2Background.LitWindows | levels/level2/generator/background.ts:22-28 | a building has a row of windows every 16 px from 10 px up to 5 px short of its top, each row as wide as the window columns |
| Level2Background.GenerateSkyline | levels/level2/generator/background.ts:15-31 | the buildings run left to right, each 10 to 30 px past the previous one's end, 40 to 90 wide and 50 to 190 tall, all starting inside the 150 px window, with well-shaped lit-window grids |
| Level2Background.SkylineExtends | levels/level2/generator/background.ts:18-30 | a well-formed building placed 10 to 30 px past the end of the skyline so far keeps it ordered and spaced, and its end becomes the furthest end |
| Level2Background.ViewCount | levels/level2/generator/background.ts:7 | there are at least ceil(levelLength / 400) + 2 window views |
| Level2Background.ViewsCoverLevel | levels/level2/generator/background.ts:7-10 | the last window view starts more than 400 px past the level's end |
| Level2Background.GenerateBackground | levels/level2/generator/background.ts:4-35 | one view per count, the i-th at x = 400 i + 100, y = 100, 150 x 200, each holding a skyline |
| Level2BiomeRules.ExtendsTrans | levels/level2/generator/index.ts:30-93 | two growth steps that each keep the generator's rules compose into one that does |
| Level2BiomeRules.PushPlatform | levels/level2/generator/index.ts:30-93 | pushing a catalogue platform keeps the generator's rules |
| Level2BiomeRules.PushDecoration | levels/level2/generator/entities.ts:6-21 | pushing a decoration with an in-range variant keeps the generator's rules |
| Level2BiomeRules.GrowPlatforms | levels/level2/generator/rules/air-layer.ts:82-85 | growing the platforms by catalogue shapes, as the air-layer placer does, keeps the generator's rules |
| Level2BiomeRules.ClocksSpacedOther | levels/level2/generator/state.ts:18-23 | a decoration other than a clock keeps the clock spacing |
| Level2BiomeRules.ClocksSpacedClock | levels/level2/generator/state.ts:18-23 | a clock allowed by the clock rule and then registered keeps every pair of clocks more than 800 px apart |
| Level2BiomeRules.ClocksApart | levels/level2/generator/state.ts:18-23 | any two different clocks of a spaced list stand more than 800 px apart |
| Level2BiomeRules.ClocksPairwise | levels/level2/generator/state.ts:18-23 | spaced clocks all stand at or left of the last registered clock, and any two of them are more than 800 px apart in placement order |
| Level2BiomeRules.ClocksSpacedNoClocks | levels/level2/generator/state.ts:18-23 | appending decorations none of which is a clock keeps the clock spacing |
| Level2BiomeRules.AddPlatform | levels/level2/generator/index.ts:30-93 | a pushed catalogue platform is appended, keeps the rules and adds one to its own kind's count and nothing to any other |
| Level2BiomeRules.AddDecoration | levels/level2/generator/entities.ts:6-21 | a pushed non-clock decoration is appended and keeps the rules and the clock spacing |
| Level2BiomeRules.AddClockIfAllowed | levels/level2/generator/state.ts:18-23 | exactly when the clock rule allows one at x, the clock decoration at x, 220 px above the floor and with the next random draw, is appended and x becomes the last clock position; otherwise nothing changes |
| Level2BiomeRules.AddAirLayer | levels/level2/generator/rules/air-layer.ts:18-92 | an air layer inside a biome keeps the generator's rules, adds at most one platform of an air kind and changes no other kind's count |
| StartBiome.StartPlatforms | levels/level2/generator/biomes/start.ts:20-43 | the opening holds a desk, a book cabinet and a file cabinet, in that order, each a catalogue shape resting on the floor, apart from one another, starting past startX and ending 560 px after it |
| StartBiome.StartDecorations | levels/level2/generator/biomes/start.ts:13-36 | the opening's decorations are a trashcan, a computer and papers on the desk top, and a cooler, each with an in-range variant |
| StartBiome.GenerateStartBiome | levels/level2/generator/biomes/start.ts:9-48 | the opening's platforms and decorations are appended in order and the x returned is 560 px past the start |
| StartBiome.StartKeepsRules | levels/level2/generator/biomes/start.ts:9-48 | the opening only appends catalogue shapes and in-range variants |
| Level2Generator.LandmarkTargets | levels/level2/generator/index.ts:28-29 | the landmark targets are Math.floor of 0.33 and 0.66 of the 21600 px level: 7128 and 14256 |
| Level2Generator.KeepClearOfDoor | levels/level2/generator/index.ts:110-112 | the platforms kept are exactly those that end before the 250 px safe zone in front of the exit door, in their original order |
| Level2Generator.KeepDecorationsClearOfDoor | levels/level2/generator/index.ts:110-113 | the decorations kept are exactly those whose 120 px reach ends before the safe zone, in their original order |
| Level2Generator.KeepClearOfDoorSplits | levels/level2/generator/index.ts:112 | the platform filter works element by element: filtering a concatenation concatenates the filtered parts |
| Level2Generator.KeepDecorationsClearOfDoorSplits | levels/level2/generator/index.ts:113 | the decoration filter works element by element: filtering a concatenation concatenates the filtered parts |
| Level2Generator.VendingLandmark | levels/level2/generator/index.ts:60-91 | a landmark appends a vending machine 60 px past x with a trashcan at its left, and a cooler 60 px right of it (registered at its own x, x moving 80 past it) exactly when the cooler rule allows one at the machine's x; otherwise x moves 80 past the machine; the generator's rules are kept |
| Level2Generator.RandomBiome | levels/level2/generator/index.ts:94-104 | one biome drawn by the roll (office below 0.4, lounge below 0.7, storage below 0.9, transition otherwise) keeps the generator's rules and the clock spacing and moves x forward by 50 to 2600 px |
| Level2Generator.ClearDoor | levels/level2/generator/index.ts:109-115 | after the door filter every platform is a catalogue shape clear of the door, every decoration has an in-range variant and clears the door, clocks stay more than 800 px apart and both landmarks survive |
| Level2Generator.GenerateLevel | levels/level2/generator/index.ts:18-116 | the trackers are reset and the level is laid out: every platform is a catalogue shape clear of the door, every decoration has an in-range variant and clears it, any two wall clocks are more than 800 px apart, each of the two vending landmarks is placed exactly once in its window, and the background has one view per window |
| OfficeBiome.DeskItems | levels/level2/generator/biomes/office.ts:31-59 | the desk-top items of a desk keep the generator's rules and the clock spacing, and draw from the stream |
| OfficeBiome.PlaceDesk | levels/level2/generator/biomes/office.ts:19-68 | one desk is pushed on the floor (exactly one more desk), maybe with an air layer above it and its desk-top items, and only every third desk may move the clock tracker; the generator's rules and the clock spacing are kept |
| OfficeBiome.PlaceSpacer | levels/level2/generator/biomes/office.ts:70-168 | the spacer after a desk adds no desk and no clock, keeps the generator's rules and moves x 60 to 240 px past the desk's end |
| OfficeBiome.SpacerFurniture | levels/level2/generator/biomes/office.ts:74-124 | a furniture spacer 40 px past the desk adds no desk, keeps the rules and ends 120 to 200 px past its start, 40 px past the furniture |
| OfficeBiome.SpacerTrashcan | levels/level2/generator/biomes/office.ts:80-88 | a big trashcan spacer of 2 to 4 sections adds no desk, keeps the rules and ends 40 px past the trashcan |
| OfficeBiome.SpacerCabinet | levels/level2/generator/biomes/office.ts:89-123 | a cabinet, xerox or shelf spacer adds no desk, keeps the rules and ends 40 px past the piece, at most 200 px from its start |
| OfficeBiome.SpacerDecoration | levels/level2/generator/biomes/office.ts:125-163 | a floor decoration spacer adds no desk and no clock, keeps the rules and the clock spacing, and moves x 110 to 180 px past the desk |
| OfficeBiome.GenerateOfficeBiome | levels/level2/generator/biomes/office.ts:14-184 | an office row of 3 to 6 desks adds exactly that many desks, keeps the generator's rules and the clock spacing, and returns an x at least the desks' total width plus 50 past the start |
| LoungeBiome.PlaceSofa | levels/level2/generator/biomes/lounge.ts:17-29 | the sofa group's first pushed platform is the sofa at startX; it adds no meeting table and keeps the generator's rules and the clock spacing, so a clock above the sofa stands more than 800 px from every other clock |
| LoungeBiome.MaybeFloorLamp | levels/level2/generator/biomes/lounge.ts:27-29 | the optional floor lamp left of the sofa is no clock, so the rules and the clock spacing are kept, and it consumes at least one draw |
| LoungeBiome.OpeningGroup | levels/level2/generator/biomes/lounge.ts:15-53 | the opening group adds no meeting table, keeps the rules and the clock spacing, and moves x by at most 320 px |
| LoungeBiome.SofaSide | levels/level2/generator/biomes/lounge.ts:34-42 | right of the sofa comes a TV (x moves 130) or a floor plant (x moves 60), with no meeting table and the rules kept |
| LoungeBiome.MeetingTableSection | levels/level2/generator/biomes/lounge.ts:56-65 | exactly one meeting table of one of the three lengths is added, x moves 30 past its end, and three draws are made |
| LoungeBiome.SecondItem | levels/level2/generator/biomes/lounge.ts:68-94 | the item after the table adds no meeting table, keeps the rules, registers a cooler only at its slot x and only when the cooler rule allowed it, and moves x by 50 px up to 120 px plus the armchair's width |
| LoungeBiome.ArmchairCorner | levels/level2/generator/biomes/lounge.ts:69-76 | the lamp and armchair add no meeting table, keep the rules and the clock spacing, and end exactly at the armchair's right edge |
| LoungeBiome.CoolerOrPlant | levels/level2/generator/biomes/lounge.ts:82-91 | exactly one decoration is appended 10 px past the slot start on the floor: a cooler, registered at the slot, when the cooler rule allows one there and the draw is under 0.6, otherwise a plant with the cooler tracker unchanged; the rules and clock spacing hold |
| LoungeBiome.GenerateLoungeBiome | levels/level2/generator/biomes/lounge.ts:12-97 | a lounge adds exactly one meeting table of one of the three lengths, keeps the generator's rules and the clock spacing, and returns an x past the table plus 140 px |
| StorageBiome.LastCrateBehind | levels/level2/generator/biomes/storage.ts:14-24 | the crate found is the last one of the list that ends at or left of x; none is found only when no crate ends there |
| StorageBiome.IsCrateTooClose | levels/level2/generator/biomes/storage.ts:12-26 | the backward scan answers whether the nearest crate ending at or before x ends less than 100 px before it, false when there is none |
| StorageBiome.NoCrateNeverTooClose | levels/level2/generator/biomes/storage.ts:25 | with no crate on the list nothing is ever too close |
| StorageBiome.CrateBlocksNext | levels/level2/generator/biomes/storage.ts:17-21 | a crate just pushed blocks any crate within 100 px after its right edge |
| StorageBiome.PushKeepsChecked | levels/level2/generator/biomes/storage.ts:50-168 | pushing a platform keeps every crate checked against what came before it, provided a pushed crate passed the rule |
| StorageBiome.GrowKeepsChecked | levels/level2/generator/biomes/storage.ts:148 | air layers never add a crate, so every crate stays checked |
| StorageBiome.StorageScale | levels/level2/generator/biomes/storage.ts:80-86 | a rack or book cabinet is 1, 1.5 or 2 base widths |
| StorageBiome.CrateAt | levels/level2/generator/biomes/storage.ts:53-59 | a crate is a catalogue crate on the floor at x |
| StorageBiome.TryCrate | levels/level2/generator/biomes/storage.ts:50-61 | a crate is pushed exactly when no crate ends less than 100 px before x, and the rules and the crate check are kept |
| StorageBiome.HighPiece | levels/level2/generator/biomes/storage.ts:65-92 | exactly one tall piece (rack, book cabinet, file cabinet or small shelf) is pushed, 80 to 160 px wide |
| StorageBiome.Structure | levels/level2/generator/biomes/storage.ts:34-111 | a structure holds exactly one tall piece, with crate steps only where the crate rule allows them, and ends within the widest structure's span |
| StorageBiome.Gap | levels/level2/generator/biomes/storage.ts:114-150 | the gap after a structure is 120 to 180 px wide, adds no tall piece and places a crate only where the crate rule allows it |
| StorageBiome.GapFloor | levels/level2/generator/biomes/storage.ts:118-146 | the gap's floor object adds no tall piece, every crate it adds passed the crate rule, and the rules and clock spacing hold |
| StorageBiome.GenerateStorageBiome | levels/level2/generator/biomes/storage.ts:28-172 | a storage run of 3 to 5 structures adds exactly that many tall pieces, every crate it places passed the crate rule, and the generator's rules and clock spacing are kept |
| StorageBiome.StructureThenGap | levels/level2/generator/biomes/storage.ts:32-154 | one round of the storage loop adds exactly one tall piece, keeps every crate checked, and moves x 80 to 490 px |
| TransitionBiome.DecorWidth | levels/level2/generator/biomes/transition.ts:57-60 | a floor decoration keeps 50, 80, 100 or 120 px clear |
| TransitionBiome.GroundObject | levels/level2/generator/biomes/transition.ts:19-65 | the ground object is a machine, a big trashcan of two or three sections, or a floor decoration, adds at most one platform, keeps the rules, and has one of the transition widths |
| TransitionBiome.TrashcanWithClutter | levels/level2/generator/biomes/transition.ts:30-44 | the trashcan area pushes exactly one big trashcan of two or three sections at x and at most a non-clock decoration, keeping the rules and the clock spacing |
| TransitionBiome.GenerateTransitionBiome | levels/level2/generator/biomes/transition.ts:11-75 | the biome puts its ground object 60 px in, adds at most three platforms, keeps the rules and returns x = start + 60 + the object's width + 80 + 60 |
| Level2Physics.CheckCollision | levels/level2/physics.ts:6-17 | two boxes collide exactly when their copies shrunk by 4 px on every side overlap |
| Level2Physics.CollisionSymmetric | levels/level2/physics.ts:6-17 | the collision test gives the same answer with its arguments swapped |
| Level2Physics.CollisionMeansOverlap | levels/level2/physics.ts:6-17 | a reported collision implies the unshrunk boxes overlap too |
| Level2Physics.Without | levels/level2/physics.ts:21 | the filtered list holds exactly the phrases other than the last one, and is no longer than the list |
| Level2Physics.GetNonRepeatingPhrase | levels/level2/physics.ts:20-24 | the phrase is from the list, and differs from a non-empty last phrase whenever the list holds some other phrase |
| Level2Physics.SinglePhraseRepeats | levels/level2/physics.ts:22 | with a one-phrase list the fallback returns that phrase, even when it repeats the last one |
| Level2Physics.SpeedMultiplier | levels/level2/physics.ts:66-71 | the multiplier is 1 or the meeting-table boost |
| Level2Physics.MaxSpeed | levels/level2/physics.ts:67-75 | the top speed is 7.8 on a meeting table and the base move speed elsewhere |
| Level2Physics.ClampSpeed | levels/level2/physics.ts:91 | the speed ends within plus or minus the top speed, is untouched when already inside, and is cut to the nearer bound otherwise |
| Level2Physics.TurnedDir | levels/level2/physics.ts:211-213 | a patrol direction of plus or minus one stays plus or minus one |
| Level2Physics.StepGuard | levels/level2/physics.ts:207-225 | a guard runs after the step exactly when it was running or was patrolling and saw the player; patrolling moves it by its patrol speed in its direction, running moves it left at run speed, an idle guard is unchanged, and its size, height and trigger distance never change |
| Level2Physics.RunningStaysRunning | levels/level2/physics.ts:207-225 | once a guard runs, it runs after any number of steps |
| Level2Physics.StepGuards | levels/level2/physics.ts:200-236 | the guard list never grows and no guard left behind the camera survives |
| Level2Physics.StepGuardsSuffix | levels/level2/physics.ts:200-236 | every guard kept from a tail of the list is kept from the whole list |
| Level2Physics.NoGuardCalmsDown | levels/level2/physics.ts:200-236 | when every guard runs, every guard kept after the step still runs |
| Level2Physics.RunDown | levels/level2/physics.ts:255-256 | a positive timer drops by the time step and a spent one is left alone |
| Level2Physics.Bounced | levels/level2/physics.ts:277-285 | a player touching the boss ends 2 px left of it, clear of it, with the bounce speeds and in the air; a player not touching it is unchanged; hp and invulnerability are never touched |
| Level2Physics.FlyAll | levels/level2/physics.ts:358-377 | the paper stacks never grow in number and none that left the screen survives |
| Level2Physics.Hurt | levels/level2/physics.ts:241-246 | a hit costs exactly one hp, sets 60 frames of invulnerability, leaves the player's box where it was and knocks it into the air |
| Level2Physics.HitShieldsPlayer | levels/level2/physics.ts:237-242 | right after a hit, no box can hit the player again |
| Level2Physics.StacksPass | levels/level2/physics.ts:358-376 | a stack that does not hit flies on and is kept unless it left the screen |
| Level2Physics.StacksHit | levels/level2/physics.ts:363-374 | the first stack to hit, scanning from the end, finds the player untouched and no later stack touching it, and the player is hurt once |
| Level2Physics.StacksDone | levels/level2/physics.ts:357-377 | after the whole scan one hp is lost exactly when an open player is touched by some flown stack; without a hit every stack flies on, with one only the highest-index touching stack is used up |
| Level2Physics.World.constructor | levels/level2/Level2.tsx:50-79 | a world starts with the given player and level length, no guards, boss or paper stacks, and the camera at 0 |
| Level2Physics.World.MoveHorizontally | levels/level2/physics.ts:73-92 | MovedHorizontally: the new speed is the driven speed clamped to the top speed of the surface and the player moves by speed times time step; an arrow key sets the facing unless knocked back; the walk animation advances by timeScale times the surface multiplier only while moving on the ground; nothing else of the player changes |
| Level2Physics.World.EffectiveLength | levels/level2/physics.ts:183 | the level length is the state's own when set and non-zero, and the configured length otherwise |
| Level2Physics.World.SpawnGuard | levels/level2/physics.ts:175-198 | at most one guard is appended, only while fewer than two are out and the player has gone 400 px since the last spawn; it patrols leftwards from just right of the screen, more than 2000 px before the end, with a catalogue radius and trigger distance; one is sure to come after 1000 px when there is room |
| Level2Physics.World.UpdateGuards | levels/level2/physics.ts:200-249 | the player loses one hp exactly when it was open to hits and one of the stepped guards touches it, and then is knocked back away from that guard as Hurt says; otherwise the player is unchanged; the tick ends in a game over exactly when that hit takes the last hp, and otherwise the guards are stepped and the left-behind ones dropped |
| Level2Physics.World.UpdateBoss | levels/level2/physics.ts:252-321 | the boss loses one hp exactly when the player stopped screaming this tick while the boss is on screen, the fight and gameplay are on and its cooldown has run out; then the cooldown and flash restart, and the level completes when that takes its last hp; otherwise both timers run down; its animation clock always advances and its box never moves; a player touching it is bounced as Bounced says, and the player's hp is never touched |
| Level2Physics.World.UpdateHazards | levels/level2/physics.ts:175-377 | guards, boss, then stacks: one hp is lost exactly when an open player is touched by a stepped guard or, once the stacks are reached, by a flown stack; a guard's hit on the last hp or the boss's last hp stops the rest; without a guard hit the player reaches the stacks as Bounced leaves it |
| Level2Physics.World.UpdateProjectiles | levels/level2/physics.ts:357-377 | the player loses one hp exactly when it was open to hits and some stack, flown, touches it, and then is knocked back left; without a hit every stack flies on and the off-screen ones are dropped; with one and no game over, the stack used up is the highest-index one touching the player and all others fly on; the game ends exactly when that hit takes the last hp |
| Level2Physics.World.Tick | levels/level2/physics.ts:51-443 | the player moves as MovedHorizontally says and at most one guard spawns; the player then loses one hp exactly when it was open to hits and a stepped guard touches it, or, when the stacks are reached, a flown stack touches the (possibly bounced) player; the boss loses at most one hp and only on the falling edge of the scream; it ends either with a game over from the last hp, with a level complete from the boss's last hp, or having remembered the scream, with a game over exactly when the player fell below the canvas and a completion exactly when it ran 200 px past the level's end |
| App.DigitChar | App.tsx:202 | a digit below ten becomes the character that many places after '0' |
| App.Digits | App.tsx:202 | the decimal form of a natural number is non-empty, all digits, one digit long exactly below 10 and two long from 10 to 99 |
| App.IntToString | App.tsx:202 | a number's string is its decimal digits, with a minus sign in front when it is negative |
| App.DigitsRoundTrip | App.tsx:202 | reading back the decimal digits of a number gives the number |
| App.PadStart2 | App.tsx:202 | a string of two or more characters is kept, a shorter one is filled on the left with '0' to two characters |
| App.LeadingZero | App.tsx:202 | a leading '0' does not change the value the digits read back as |
| App.TwoDigits | App.tsx:202 | a number below 100, padded, is two digits that read back as the number |
| App.Trunc | App.tsx:200-201 | truncation rounds a non-negative number down and a negative one up |
| App.Mod60 | App.tsx:201 | `seconds % 60` lies in [0, 60) for a non-negative time and in (-60, 0] for a negative one |
| App.FormatTime | App.tsx:199-203 | the clock text has at least five characters, with the colon third from the end for a non-negative time |
| App.MinutesAndSeconds | App.tsx:200-201 | for a non-negative time the minutes are the whole seconds divided by 60 and the seconds their remainder |
| App.FormatTimeFields | App.tsx:199-203 | below 100 minutes the text is five characters: the padded minutes, a colon, and the padded seconds left over |
| App.FormatTimeLength | App.tsx:199-203 | below 100 minutes the clock text is exactly five characters |
| App.FormatTimeReadsBack | App.tsx:199-203 | below 100 minutes the text is mm:ss, the seconds field is below 60, and 60 times the minutes plus the seconds read back the whole seconds given |
| App.NewHighScore | App.tsx:87-90 | the best score is at least the old best and the new score, is one of them, and changes exactly when the new score is strictly higher |
| App.HighScoreIsBest | App.tsx:87-109 | after any run of results the best score is at least the starting best and every result, and is one of them |
| App.AppState.constructor | App.tsx:47-67 | the app starts on the menu at level 1 with no high score, no restarts, no boss rush, no transition and no driver chosen |
| App.AppState.HandleGameOver | App.tsx:75-91 | the crash screen shows with the final score, a driver's name from the list is chosen on level 2 and kept on any other level, and the best score follows the high-score rule |
| App.AppState.HandleLevelComplete | App.tsx:94-110 | the result screen shows the score, the time and the level, and the best score follows the high-score rule |
| App.AppState.HandleNextLevel | App.tsx:113-125 | after level 1 the game goes to level 2's intro, after any other level back to the menu at level 1, and boss rush is off |
| App.AppState.StartLabel | App.tsx:147 | the transition caption is "BOSS BATTLE" in a boss rush and "LEVEL " followed by the level number otherwise |
| App.AppState.StartLevel | App.tsx:136-150 | the restart key goes up by one, the game is playing behind a transition with the level selector closed, boss rush as asked, and the caption names the level given or else the current one |
| App.AppState.RenderLevel | App.tsx:164-197 | level 1 shows the platformer, level 2 the ring-road race and level 3 the placeholder; a level is active while playing or on the crash screen, shows game over exactly on it, and the platformer starts at the boss exactly in a boss rush |
| App.RestartChangesKey | App.tsx:144-168 | each restart gives the level a key different from the one before, so it is built afresh |

## Left out

- **External inputs.**
  - The `ROT.DividedMaze` call: the maze grid is an input to `Level3Map.GenerateLevelMap`.
  - `Math.random()`, including the ids built from it: a stream of draws in [0, 1).
  - The sine-based table noise: an oracle.
- **Drawing and UI.**
  - All canvas drawing, sprites, colours and the static-canvas contents. Only the cache's state is modelled.
  - React rendering, `useEffect` timers, fades, `requestAnimationFrame` loops and the intro and birthday screens.
  - `handleMainStart`: it only changes state after a 1200 ms timeout.
  - `handleRestartLevel`: it is a call of `startLevel` with the current level.
- **I/O.**
  - The microphone and `AudioContext`: the scream is a boolean input of each tick.
  - `localStorage`: the high score is neither loaded at start-up nor saved. The model's shell starts from a high score of 0.
- **Phrase content.** Speech-bubble texts, bubble timers, the Katya taunts, the `hasBeenJumpedOver` flag and the taunt cooldown are left out. For phrases, only membership and non-repetition are modelled.
- **Race** (`levels/level1/physics.ts`). Left out are:
  - the intro countdown;
  - the camera, screen shake, skid marks and speed lines;
  - traffic movement, lane following, sorting and removal;
  - near-miss scoring;
  - the fading of floating messages.
- **Platformer tick** (`levels/level2/physics.ts`). Left out are:
  - vertical motion, gravity, jumping and landing (lines 98-165);
  - the boss's attack patterns and projectile aiming (lines 323-353), which are trigonometric;
  - the speed lines (lines 381-421);
  - the camera (lines 423-434), given to the model as `cameraX`;
  - `gameTime`.
- **Parameters.**
  - Window and canvas sizes, and `floorY`, are parameters.
  - The armchair's configuration is not part of this model. Its width and height are parameters. The width is required to be positive and at most `MAX_ARMCHAIR_WIDTH` (400 px), which keeps one lounge step under the level's step bound; the armchair is only required to rest on the floor.
- Level2Physics.World.UpdateProjectiles: the list of paper stacks is not stated when the hit ends the game, since the loop stops halfway through it.
- Level2Physics.World.UpdateGuards: the guard list is not stated when the hit ends the game, since the loop stops halfway through it.
- Level2Physics.World.UpdateHazards: states the hit rule, the guard list and the player the stacks meet. It leaves the boss's timers and the new paper stacks to UpdateBoss and UpdateProjectiles.
- Level2Physics.World.Tick: states the move, the spawn, the hit rule, the boss's hp, the scream edge and the callbacks. It leaves the boss's timers and the new paper stacks to UpdateBoss and UpdateProjectiles.
- OfficeBiome.DeskItems: states that the desk-top items keep the generator's rules and the clock spacing. It does not state which variant (`i % 3`, `i % 4`) each item gets.
- OfficeBiome.GenerateOfficeBiome: states counts, catalogue shapes, variant ranges, spacing and the returned x. It does not state every pushed element's exact position.
- LoungeBiome.GenerateLoungeBiome: states counts, catalogue shapes, variant ranges, spacing and the returned x. It does not state every pushed element's exact position.
- StorageBiome.GenerateStorageBiome: states counts, catalogue shapes, variant ranges, spacing and the returned x. It does not state every pushed element's exact position.
- TransitionBiome.GenerateTransitionBiome: states counts, catalogue shapes, variant ranges, spacing and the returned x. It does not state every pushed element's exact position.
- Level2Generator.GenerateLevel: states counts, catalogue shapes, variant ranges, spacing and the returned x. It does not state every pushed element's exact position.
- OfficeBiome.PlaceSpacer: states the rules it keeps, the counts it changes and, where it returns one, the new x. It does not state each pushed element's exact position.
- OfficeBiome.SpacerFurniture: states the rules it keeps, the counts it changes and, where it returns one, the new x. It does not state each pushed element's exact position.
- OfficeBiome.SpacerTrashcan: states the rules it keeps, the counts it changes and, where it returns one, the new x. It does not state each pushed element's exact position.
- OfficeBiome.SpacerCabinet: states the rules it keeps, the counts it changes and, where it returns one, the new x. It does not state each pushed element's exact position.
- OfficeBiome.SpacerDecoration: states the rules it keeps, the counts it changes and, where it returns one, the new x. It does not state each pushed element's exact position.
- LoungeBiome.PlaceSofa: states the rules it keeps, the counts it changes and, where it returns one, the new x. It does not state each pushed element's exact position.
- LoungeBiome.MaybeFloorLamp: states the rules it keeps, the counts it changes and, where it returns one, the new x. It does not state each pushed element's exact position.
- LoungeBiome.OpeningGroup: states the rules it keeps, the counts it changes and, where it returns one, the new x. It does not state each pushed element's exact position.
- LoungeBiome.SecondItem: states the rules it keeps, the counts it changes and, where it returns one, the new x. It does not state each pushed element's exact position.
- LoungeBiome.ArmchairCorner: states the rules it keeps, the counts it changes and, where it returns one, the new x. It does not state each pushed element's exact position.
- LoungeBiome.CoolerOrPlant: states the decoration it places exactly, but not the air-layer platform the lounge step puts above it, which is stated only by the rules it keeps.
- StorageBiome.Gap: states the rules it keeps, the counts it changes and, where it returns one, the new x. It does not state each pushed element's exact position.
- StorageBiome.GapFloor: states the rules it keeps, the counts it changes and, where it returns one, the new x. It does not state each pushed element's exact position.
- StorageBiome.StructureThenGap: states the rules it keeps, the counts it changes and, where it returns one, the new x. It does not state each pushed element's exact position.
- TransitionBiome.GroundObject: states the rules it keeps, the counts it changes and, where it returns one, the new x. It does not state each pushed element's exact position.
- TransitionBiome.TrashcanWithClutter: states the rules it keeps, the counts it changes and, where it returns one, the new x. It does not state each pushed element's exact position.
- Level2BiomeRules.AddPlatform: the catalogue allows a big trashcan of 2 to 4 sections. So the lounge's and the transition's 2 to 3 sections are checked against that wider range.
- Level3Map.ScanRow: states which cells the scanner may mark and that each mark follows at least three open cells. It does not state that the run equals the drawn limit of 4 to 6.
- Level3Map.ClearEntry: requires the entry corridor to lie inside the grid, which every door the room set-up builds does. Out of range the code throws for a left or right door and writes past the end of a row for a top or bottom one; neither outcome is modelled.
