# Lane racer: a verified model of the simulation step

This project models the simulation core of a lane-racing arcade game that
exists in two independent variants, and proves properties of each. The two
are kept apart, one Dafny module per source file:

- `TopDownRacer` (`top_down_racer.dfy`) models `p1.py`, the pygame version.
  Here y grows downward. The player car moves in both axes inside
  [150, 450] x [0, 700]. Enemies fall down the screen and are recycled to
  y = -100 once they pass y = 800. Reaching the top edge ends the round as a
  win. The restart key works only after the round is over, and it keeps the
  enemy base speed.
- `GlutRacer` (`glut_racer.dfy`) models `racing_game.cpp`, the GLUT
  version. Here y grows upward. The player car stays at y = 50 and moves
  only sideways. Enemies fall and respawn at y in [800, 1099] once they drop
  below -100. There is no win. The restart key works in every state and
  puts the base speed back to 5.

Each module has the same layout:

- A `World` datatype holds the program's globals as one value.
- Functions on `World` give each operation's effect: a key handler, the
  body of the enemy loop for one enemy (`EnemyStep` / `TimerStep`), the
  loop after k iterations (`EnemyLoop` / `TimerLoop`) and a whole frame or
  tick (`NextFrame` / `AfterTimer`).
- Lemmas prove the game's properties about those functions.
- A class holds the globals as mutable fields (`Game` for p1.py,
  `RacingGame` for racing_game.cpp). Each of its methods is proved to leave
  the fields equal to the function applied to the old state. The
  constructors, the reset-game methods, the key handlers and the per-frame
  or per-tick methods (`Game.Update`, `RacingGame.Timer`) also keep the
  state invariant `Inv`. The helper methods that do one part of that work
  (`Game.MovePlayer`, `Game.AdvanceEnemy`, `RacingGame.TimerEnemy` and both
  `ResetEnemies`) promise only their effect on the fields. In the C++ model
  the enemies are the fixed `array<Enemy>` of the source, written in place.

Every random draw is an input with the source's range:
- p1.py: `randint(0,3)`, `randint(0,300)` and `randint(0,2)`, all inclusive.
- racing_game.cpp: `rand()%4`, `rand()%300` and `rand()%3`.

Each enemy slot gets its own draw record (`Spawn`, `Redraw`).

Notable behaviour the proofs pin down:
- In p1.py the collision test does not stop the enemy loop. Later enemies
  in the same frame still move and can still score (`LoopScore`,
  `LoopGameOver`).
- p1.py enemies start at y in [800, 1100], so the first frame after a
  restart recycles all three and scores 3 (`FirstFrameRecyclesAll`).
- In racing_game.cpp the first tick after a reset scores nothing and
  cannot end the round (`FirstTickAfterReset`).
- In racing_game.cpp the base speed always equals 5 + score / 10
  (`GlutRacer.Inv`, kept by every operation). In p1.py the base speed only
  grows and survives restarts.
- p1.py's end screen picks "YOU WIN!" from `car_pos_y <= 0` alone
  (`EndBanner`). A round that ends with a collision at the top edge is
  therefore announced as won. The same screen is drawn while the game is
  paused.

Where the two programs differ on purpose or by accident, each is modelled as
written:
- p1.py's `reset_game` keeps ENEMY_BASE_SPEED, while racing_game.cpp's
  `resetGame` sets `enemyBaseSpeed` back to 5.
- racing_game.cpp resets on 'R' even while the round is on; p1.py restarts
  only when `game_over` is set.
- In p1.py a collision and reaching the top edge set the same `game_over`
  flag in the same frame; only the end screen's banner tells them apart
  (`FrameBanner`, `CollisionAtTopShowsWin`).

## Model

| member | source | states |
|---|---|---|
| TopDownRacer.CheckCollision | p1.py:93-95 | true exactly when the two car boxes are within one car width in x and one car height in y (closed intervals) |
| TopDownRacer.CollisionSymmetric | p1.py:93-95 | swapping car and enemy does not change the result |
| TopDownRacer.CollisionReflexive | p1.py:93-95 | two cars at the same position collide |
| TopDownRacer.CollisionTouchingEdges | p1.py:94-95 | boxes whose edges touch collide; one unit further apart they do not |
| TopDownRacer.NewEnemy | p1.py:38-42 | a new enemy is on one of the four lanes, at y in [800, 1100], with speed in [base, base + 2] |
| TopDownRacer.FreshEnemies | p1.py:55-57 | the reset list holds exactly 3 enemies, each in those ranges |
| TopDownRacer.Restarted | p1.py:46-53 | restart puts the car at (250, 700), score 0, both flags false, fresh enemies, and keeps the base speed |
| TopDownRacer.RestartIdempotent | p1.py:46-57 | restarting twice gives the same state as restarting once |
| TopDownRacer.AfterKey | p1.py:106-110 | 'R' restarts only when the round is over and otherwise changes nothing; 'P' flips the pause flag in every state |
| TopDownRacer.PauseTwiceRestores | p1.py:109-110 | two 'P' presses give back the original state |
| TopDownRacer.Clamp | p1.py:131-132 | the result lies in [lo, hi]; it is v when v is in range and the nearer bound otherwise |
| TopDownRacer.MoveCar | p1.py:118-132 | whatever keys are held, the car ends within [150, 450] x [0, 700]; from the road it moves at most one step on each axis; with no key it stays put |
| TopDownRacer.MoveCarStaysOnGrid | p1.py:119-132 | from a grid point on the road the car stays on the 20-unit grid, and each of left, right, up and down held alone moves it exactly one step that way unless it is already at that edge |
| TopDownRacer.Advanced | p1.py:134-139 | an enemy past y = 800 after moving goes to y = -100 on a lane with speed in [base, base + 2]; otherwise only its y grows by its speed |
| TopDownRacer.EnemyStep | p1.py:134-145 | one loop pass changes only enemy i, adds 1 to the score exactly on a recycle, bumps the base speed exactly when the new score is a multiple of 10, and sets game over exactly on a collision |
| TopDownRacer.EnemyLoop | p1.py:134-145 | after k passes the list length, the car and the pause flag are unchanged, later enemies are untouched, the score grows by at most k, the base speed does not drop, and game over is never cleared |
| TopDownRacer.NextFrame | p1.py:115-157 | a frame changes nothing when over or paused; otherwise the car ends where MoveCar puts it for the held keys, on the road, and reaching y <= 0 ends the round |
| TopDownRacer.EndBanner | p1.py:160-165 | the end screen says "YOU WIN!" exactly when car_pos_y <= 0 |
| TopDownRacer.FrameBanner | p1.py:144-165 | a frame of play that ends the round with the car below the top edge ended by a collision and shows GAME OVER; one that leaves the car at y <= 0 ends the round and shows YOU WIN, collision or not |
| TopDownRacer.CollisionAtTopShowsWin | p1.py:134-165 | a concrete frame, from a state satisfying the invariant, where the car reaches the top while a recycled enemy touches it: the round ends by a collision and the banner still says YOU WIN |
| TopDownRacer.CountPast | p1.py:134-140 | counts the enemies that will pass the board this frame; at most the list length |
| TopDownRacer.LoopScore | p1.py:134-140 | the score rises by exactly the number of recycled enemies |
| TopDownRacer.LoopBaseSpeed | p1.py:140-142 | the base speed rises by exactly the number of multiples of 10 the score passes |
| TopDownRacer.LoopBaseMonotone | p1.py:140-142 | the base speed never decreases along the loop |
| TopDownRacer.LoopEnemy | p1.py:134-139 | every enemy is moved or recycled exactly once, with the base speed of its own pass |
| TopDownRacer.LoopGameOver | p1.py:144-145 | the loop sets game over exactly when some enemy, at its new position, meets the car |
| TopDownRacer.FrameScore | p1.py:134-142 | in a frame of play the score rises by the number of recycles and the base speed by the multiples of 10 passed |
| TopDownRacer.FrameEnemies | p1.py:134-139 | in a frame of play each recycled enemy is at y = -100 on a lane with a speed between the old base and the new base + 2; every other enemy only falls by its speed |
| TopDownRacer.FrameGameOver | p1.py:144-157 | a frame of play ends the round exactly when some enemy meets the car or the car has reached y <= 0 |
| TopDownRacer.RestartedInv | p1.py:46-57 | a restart establishes the invariant (3 enemies, car on the road grid, valid enemies) |
| TopDownRacer.AfterKeyInv | p1.py:106-110 | key events keep the invariant |
| TopDownRacer.NextFrameInv | p1.py:115-157 | a frame keeps the invariant: 3 enemies on lanes with y in [-100, 1100] and speed in [5, base + 2], the car on the road grid, score >= 0, base >= 5 |
| TopDownRacer.FirstFrameRecyclesAll | p1.py:134-142 | the first frame of play after a restart recycles all three enemies, scores 3, keeps the base speed and does not end the round |
| TopDownRacer.Game.constructor | p1.py:29-53 | program start gives the car at (250, 700), score 0, base speed 5, both flags false, 3 fresh enemies |
| TopDownRacer.Game.ResetEnemies | p1.py:55-57 | replaces the enemy list with 3 fresh enemies and changes nothing else |
| TopDownRacer.Game.ResetGame | p1.py:46-53 | the fields become the restarted state and the invariant holds |
| TopDownRacer.Game.HandleKey | p1.py:106-110 | the fields become the key event's result and the invariant holds |
| TopDownRacer.Game.MovePlayer | p1.py:118-132 | the car position becomes the moved and clamped one; nothing else changes |
| TopDownRacer.Game.AdvanceEnemy | p1.py:134-145 | one pass of the enemy loop updates the fields as EnemyStep says |
| TopDownRacer.Game.Update | p1.py:115-157 | the fields become the frame's result and the invariant holds |
| GlutRacer.CheckCollision | racing_game.cpp:130-133 | true exactly when the two car boxes are within one car width in x and one car height in y (closed intervals) |
| GlutRacer.CollisionSymmetric | racing_game.cpp:130-133 | swapping the two boxes does not change the result |
| GlutRacer.CollisionReflexive | racing_game.cpp:130-133 | two cars at the same position collide |
| GlutRacer.CollisionTouchingEdges | racing_game.cpp:131-132 | boxes whose edges touch collide; one unit further apart they do not |
| GlutRacer.Spawned | racing_game.cpp:27-29 | a spawned enemy is on one of the four lanes, at y in [800, 1099], with speed in [base, base + 2] |
| GlutRacer.SpawnAll | racing_game.cpp:25-31 | resetEnemies fills all 3 slots with enemies in those ranges |
| GlutRacer.AfterResetGame | racing_game.cpp:33-40 | reset gives carPosX 250, score 0, both flags false, base speed 5, and enemies drawn with speed base 5 |
| GlutRacer.ResetForgetsState | racing_game.cpp:33-40 | the state after a reset does not depend on the state before it |
| GlutRacer.AfterKeyboard | racing_game.cpp:172-181 | 'r'/'R' reset in every state; 'p'/'P' flip the pause flag; other keys change nothing; only a reset clears game over |
| GlutRacer.PauseTwiceRestores | racing_game.cpp:176-178 | two 'P' presses give back the original state |
| GlutRacer.AfterSpecialKey | racing_game.cpp:161-170 | nothing changes when over or paused; during play Left moves carPosX one step left unless it is at 150, Right one step right unless it is at 450, other keys change nothing; only carPosX ever changes |
| GlutRacer.SpecialKeyStaysOnGrid | racing_game.cpp:161-170 | carPosX stays in [150, 450] on the grid 150 + 20k |
| GlutRacer.Fallen | racing_game.cpp:138-143 | an enemy that drops below -100 is respawned on a lane at y in [800, 1099] with speed in [base, base + 2]; otherwise only its y drops by its speed |
| GlutRacer.TimerStep | racing_game.cpp:137-155 | one loop pass changes only enemy i, adds 1 to the score exactly on a respawn, bumps the base speed exactly when the new score is a multiple of 10, and sets game over exactly on a collision with the car at (carPosX, 50) |
| GlutRacer.TimerLoop | racing_game.cpp:137-155 | after k passes the array length, carPosX and the pause flag are unchanged, later enemies are untouched, the score grows by at most k, the base speed does not drop, and game over is never cleared |
| GlutRacer.AfterTimer | racing_game.cpp:135-157 | a tick changes nothing when over or paused; it never moves the car, never clears game over, and never lowers the score or the base speed |
| GlutRacer.CountFallen | racing_game.cpp:140-144 | counts the enemies that will drop below the board this tick; at most the array length |
| GlutRacer.LoopScore | racing_game.cpp:140-144 | the score rises by exactly the number of respawned enemies |
| GlutRacer.LoopBaseSpeed | racing_game.cpp:146-149 | the base speed rises by exactly the number of multiples of 10 the score passes |
| GlutRacer.LoopBaseMonotone | racing_game.cpp:146-149 | the base speed never decreases along the loop |
| GlutRacer.LoopEnemy | racing_game.cpp:138-143 | every enemy is moved or respawned exactly once, with the base speed of its own pass |
| GlutRacer.LoopGameOver | racing_game.cpp:152-154 | the loop sets game over exactly when some enemy, at its new position, meets the car |
| GlutRacer.TimerScore | racing_game.cpp:140-149 | in a tick of play the score rises by the number of respawns and the base speed by the multiples of 10 passed |
| GlutRacer.TimerEnemies | racing_game.cpp:137-145 | in a tick of play each respawned enemy is on a lane at y in [800, 1099] with a speed between the old base and the new base + 2; every other enemy only drops by its speed |
| GlutRacer.TimerGameOver | racing_game.cpp:152-154 | a tick of play ends the round exactly when some enemy meets the car at (carPosX, 50) |
| GlutRacer.ResetInv | racing_game.cpp:33-40 | a reset establishes the invariant |
| GlutRacer.KeyboardInv | racing_game.cpp:172-178 | keyboard events keep the invariant |
| GlutRacer.SpecialKeyInv | racing_game.cpp:161-170 | arrow keys keep the invariant |
| GlutRacer.TimerInv | racing_game.cpp:135-157 | a tick keeps the invariant: 3 enemies on lanes with y in [-100, 1099] and speed in [5, base + 2], the car on its grid, score >= 0, base speed = 5 + score / 10 |
| GlutRacer.BaseSpeedFollowsScore | racing_game.cpp:146-149 | the base speed is at least 5 and never drops in a tick; when a tick scores one point, it rises exactly when the new score is a multiple of 10 |
| GlutRacer.FirstTickAfterReset | racing_game.cpp:137-154 | the first tick after a reset respawns nothing, keeps score 0, only lowers each enemy by its speed, and does not end the round |
| GlutRacer.RacingGame.constructor | racing_game.cpp:184-192 | program start gives the initial values of the globals declared at racing_game.cpp:10-23 (carPosX 250, score 0, base speed 5, both flags false), then init()'s resetEnemies call fills the 3 enemies |
| GlutRacer.RacingGame.ResetEnemies | racing_game.cpp:25-31 | writes 3 fresh enemies into the array in place and changes nothing else |
| GlutRacer.RacingGame.ResetGame | racing_game.cpp:33-40 | the fields become the reset state and the invariant holds |
| GlutRacer.RacingGame.TimerEnemy | racing_game.cpp:138-154 | one pass of the timer loop updates the fields and array slot i as TimerStep says |
| GlutRacer.RacingGame.Timer | racing_game.cpp:135-157 | the fields become the tick's result and the invariant holds |
| GlutRacer.RacingGame.SpecialKeys | racing_game.cpp:161-170 | the fields become the special key's result and the invariant holds |
| GlutRacer.RacingGame.Keyboard | racing_game.cpp:172-181 | the fields become the key's result and the invariant holds |

## Left out

- Drawing and text: `draw_text`, `draw_rect`, `draw_car`, `draw_road` in p1.py, and `drawText`, `drawCar`, `drawRoad`, `display` in racing_game.cpp. They only render. The one decision they make, which banner to show, is modelled as `EndBanner`.
- Window and library setup, the event loop, frame pacing (`clock.tick(60)`, `glutTimerFunc(16, ...)`, `glutPostRedisplay`, `glutMainLoop`) and process exit (window close, Escape, `sys.exit`, `exit(0)`). One frame or tick is one method call. Held keys are booleans. In racing_game.cpp, Escape is treated as a key that changes no state.
- The random generators (`random.randint`, `rand`, `srand(time(NULL))`). Their results are inputs with the source's ranges. The model does not fix the order in which draws are consumed.
- p1.py's module-level `enemies = [Enemy() ...]`. The `__main__` guard replaces that list at once with `reset_game()`, so the constructor models only the replacement.
- Object identity of p1.py's `Enemy` instances. They are modelled as values in a sequence that the loop rewrites slot by slot. Nothing else holds a reference to them, so no aliasing is lost.
- The 32-bit `int` of racing_game.cpp. Score, positions and speeds are unbounded integers, so wrap-around after about 2^31 points is not modelled.
- p2.py, the rocket game. It is built on floating-point trigonometry, a square-root distance test and wall-clock time.
