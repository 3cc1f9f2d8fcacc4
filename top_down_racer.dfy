/**
  The top-down variant of the lane-racing game (p1.py, pygame; y grows
  downward). The player car drives in a 300 x 700 box, three enemy cars fall
  down the lanes and are recycled to the top once they leave the board; each
  recycle scores a point and every tenth point makes new enemies faster.

  The game's mutable globals are gathered into the class `Game`; its methods
  are proved against the functions on `World` values below, and the
  properties of the game are lemmas about those functions.
*/
module TopDownRacer {

  // Constants of the game (p1.py:6-12, 30-32).
  const WindowHeight: int := 800
  const CarWidth: int := 50
  const CarHeight: int := 100
  const LaneWidth: int := 100
  const MaxEnemies: nat := 3
  const InitialBaseSpeed: int := 5
  const CarSpeed: int := 20
  const RoadLeft: int := 150
  const RoadRight: int := 450
  const FloorY: int := WindowHeight - CarHeight
  const StartX: int := 250

  /** One enemy car: its top-left corner and the distance it falls per frame. */
  datatype Enemy = Enemy(x: int, y: int, speed: int)

  /** The three draws of `Enemy()`: randint(0, 3), randint(0, 300), randint(0, 2). */
  datatype Spawn = Spawn(lane: int, offset: int, jitter: int)

  /** The two draws of a recycle: randint(0, 3) and randint(0, 2). */
  datatype Redraw = Redraw(lane: int, jitter: int)

  /** Arrow keys held during a frame. */
  datatype Keys = Keys(left: bool, right: bool, up: bool, down: bool)

  /** A key-down event; quitting (window close, Escape) is not part of the model. */
  datatype Key = KeyR | KeyP | OtherKey

  /** What the end screen announces. */
  datatype Banner = YouWin | GameOver

  /**
    The module globals of p1.py: car position, score, the two flags,
    ENEMY_BASE_SPEED and the list of enemies.
  */
  datatype World = World(carX: int, carY: int, score: int, baseSpeed: int,
                         gameOver: bool, isPaused: bool, enemies: seq<Enemy>)

  predicate ValidSpawn(s: Spawn) {
    0 <= s.lane <= 3 && 0 <= s.offset <= 300 && 0 <= s.jitter <= 2
  }

  predicate ValidSpawns(ss: seq<Spawn>) {
    |ss| == MaxEnemies && forall i :: 0 <= i < |ss| ==> ValidSpawn(ss[i])
  }

  predicate ValidRedraw(d: Redraw) {
    0 <= d.lane <= 3 && 0 <= d.jitter <= 2
  }

  predicate ValidRedraws(ds: seq<Redraw>) {
    forall i :: 0 <= i < |ds| ==> ValidRedraw(ds[i])
  }

  /** The four lane origins an enemy can be placed on. */
  predicate IsLane(x: int) {
    x == 150 || x == 250 || x == 350 || x == 450
  }

  /** The box the player car is kept in. */
  predicate OnRoad(x: int, y: int) {
    RoadLeft <= x <= RoadRight && 0 <= y <= FloorY
  }

  /** Positions reachable from the start by steps of CarSpeed. */
  predicate OnGrid(x: int, y: int) {
    (x - RoadLeft) % CarSpeed == 0 && y % CarSpeed == 0
  }

  function Abs(n: int): nat {
    if n < 0 then -n else n
  }

  /**
    Closed-interval overlap of the player's box at (carX, carY) with an
    enemy's box at (enemyX, enemyY), both CarWidth x CarHeight: the boxes
    meet exactly when their corners are within one car size on each axis,
    touching edges included.
  */
  function CheckCollision(carX: int, carY: int, enemyX: int, enemyY: int): (hit: bool)
    ensures hit <==> Abs(carX - enemyX) <= CarWidth && Abs(carY - enemyY) <= CarHeight
  {
    !(carX + CarWidth < enemyX || carX > enemyX + CarWidth ||
      carY + CarHeight < enemyY || carY > enemyY + CarHeight)
  }

  lemma CollisionSymmetric(x1: int, y1: int, x2: int, y2: int)
    ensures CheckCollision(x1, y1, x2, y2) == CheckCollision(x2, y2, x1, y1)
  {
  }

  lemma CollisionReflexive(x: int, y: int)
    ensures CheckCollision(x, y, x, y)
  {
  }

  lemma CollisionTouchingEdges(x: int, y: int)
    ensures CheckCollision(x, y, x + CarWidth, y)
    ensures CheckCollision(x, y, x, y + CarHeight)
    ensures !CheckCollision(x, y, x + CarWidth + 1, y)
    ensures !CheckCollision(x, y, x, y + CarHeight + 1)
  {
  }

  /** `Enemy()` with the base speed current at the time of the call. */
  function NewEnemy(base: int, s: Spawn): (e: Enemy)
    requires ValidSpawn(s)
    ensures IsLane(e.x)
    ensures WindowHeight <= e.y <= WindowHeight + 300
    ensures base <= e.speed <= base + 2
  {
    Enemy(RoadLeft + s.lane * LaneWidth, WindowHeight + s.offset, base + s.jitter)
  }

  /** The list built by `reset_enemies`: MaxEnemies fresh enemies below the board. */
  function FreshEnemies(base: int, ss: seq<Spawn>): (es: seq<Enemy>)
    requires ValidSpawns(ss)
    ensures |es| == MaxEnemies
    ensures forall i :: 0 <= i < |es| ==>
      IsLane(es[i].x) && WindowHeight <= es[i].y <= WindowHeight + 300 &&
      base <= es[i].speed <= base + 2
  {
    seq(MaxEnemies, i requires 0 <= i < MaxEnemies => NewEnemy(base, ss[i]))
  }

  /**
    `reset_game`: the car back at the start, score and flags cleared, fresh
    enemies; ENEMY_BASE_SPEED is a global `reset_game` does not touch.
  */
  function Restarted(w: World, ss: seq<Spawn>): (r: World)
    requires ValidSpawns(ss)
    ensures r.carX == StartX && r.carY == FloorY && r.score == 0
    ensures !r.gameOver && !r.isPaused
    ensures r.baseSpeed == w.baseSpeed
    ensures r.enemies == FreshEnemies(w.baseSpeed, ss)
  {
    World(StartX, FloorY, 0, w.baseSpeed, false, false, FreshEnemies(w.baseSpeed, ss))
  }

  lemma RestartIdempotent(w: World, ss: seq<Spawn>)
    requires ValidSpawns(ss)
    ensures Restarted(Restarted(w, ss), ss) == Restarted(w, ss)
  {
  }

  /**
    A key-down event: 'R' restarts only when the round is over, 'P' flips
    the pause flag in every state, anything else changes nothing.
  */
  function AfterKey(w: World, key: Key, ss: seq<Spawn>): (r: World)
    requires ValidSpawns(ss)
    ensures key == KeyR && w.gameOver ==> r == Restarted(w, ss)
    ensures key == KeyR && !w.gameOver ==> r == w
    ensures key == KeyP ==> r == w.(isPaused := !w.isPaused)
    ensures key == OtherKey ==> r == w
  {
    var w1 := if key == KeyR && w.gameOver then Restarted(w, ss) else w;
    if key == KeyP then w1.(isPaused := !w1.isPaused) else w1
  }

  lemma PauseTwiceRestores(w: World, ss: seq<Spawn>)
    requires ValidSpawns(ss)
    ensures AfterKey(AfterKey(w, KeyP, ss), KeyP, ss) == w
  {
  }

  function Clamp(v: int, lo: int, hi: int): (r: int)
    requires lo <= hi
    ensures lo <= r <= hi
    ensures lo <= v <= hi ==> r == v
    ensures v < lo ==> r == lo
    ensures hi < v ==> r == hi
  {
    if v < lo then lo else if hi < v then hi else v
  }

  /**
    The movement part of a frame: each held arrow key moves the car by
    CarSpeed when it is not already at that edge, then both coordinates are
    clamped to the road. Whatever keys are held, the car ends on the road.
  */
  function MoveCar(x: int, y: int, keys: Keys): (p: (int, int))
    ensures OnRoad(p.0, p.1)
    ensures keys == Keys(false, false, false, false) && OnRoad(x, y) ==> p == (x, y)
    ensures OnRoad(x, y) ==> Abs(p.0 - x) <= CarSpeed && Abs(p.1 - y) <= CarSpeed
  {
    var x1 := if keys.left && x > RoadLeft then x - CarSpeed else x;
    var x2 := if keys.right && x1 < RoadRight then x1 + CarSpeed else x1;
    var y1 := if keys.up && y > 0 then y - CarSpeed else y;
    var y2 := if keys.down && y1 < FloorY then y1 + CarSpeed else y1;
    (Clamp(x2, RoadLeft, RoadRight), Clamp(y2, 0, FloorY))
  }

  /**
    From a grid position on the road the car stays on the grid, and the
    clamp never has to cut a step short: each arrow key held alone moves the
    car exactly one step that way unless it is already at that edge, in
    which case it stays put.
  */
  lemma MoveCarStaysOnGrid(x: int, y: int, keys: Keys)
    requires OnRoad(x, y) && OnGrid(x, y)
    ensures OnGrid(MoveCar(x, y, keys).0, MoveCar(x, y, keys).1)
    ensures keys == Keys(true, false, false, false) ==>
      MoveCar(x, y, keys) == (if x > RoadLeft then x - CarSpeed else x, y)
    ensures keys == Keys(false, true, false, false) ==>
      MoveCar(x, y, keys) == (if x < RoadRight then x + CarSpeed else x, y)
    ensures keys == Keys(false, false, true, false) ==>
      MoveCar(x, y, keys) == (x, if y > 0 then y - CarSpeed else y)
    ensures keys == Keys(false, false, false, true) ==>
      MoveCar(x, y, keys) == (x, if y < FloorY then y + CarSpeed else y)
  {
  }

  /** An enemy leaves the board in this frame. */
  predicate PastBoard(e: Enemy) {
    e.y + e.speed > WindowHeight
  }

  /**
    One enemy's move in a frame: it falls by its speed, and once it is past
    the board it is recycled to just above the top, on a random lane, with a
    random speed from the current base speed.
  */
  function Advanced(e: Enemy, base: int, d: Redraw): (r: Enemy)
    requires ValidRedraw(d)
    ensures PastBoard(e) ==>
      r.y == -CarHeight && IsLane(r.x) && base <= r.speed <= base + 2
    ensures !PastBoard(e) ==> r == e.(y := e.y + e.speed)
  {
    var moved := e.(y := e.y + e.speed);
    if moved.y > WindowHeight then
      Enemy(RoadLeft + d.lane * LaneWidth, -CarHeight, base + d.jitter)
    else
      moved
  }

  /**
    The body of the enemy loop for enemy i: move or recycle it, score the
    recycle (bumping the base speed on every tenth point), and end the
    round if it now meets the car. Nothing else changes.
  */
  function EnemyStep(w: World, i: nat, d: Redraw): (r: World)
    requires i < |w.enemies| && ValidRedraw(d)
    ensures |r.enemies| == |w.enemies|
    ensures r.carX == w.carX && r.carY == w.carY && r.isPaused == w.isPaused
    ensures forall j :: 0 <= j < |w.enemies| && j != i ==> r.enemies[j] == w.enemies[j]
    ensures r.score == w.score + (if PastBoard(w.enemies[i]) then 1 else 0)
    ensures r.baseSpeed == w.baseSpeed + (if PastBoard(w.enemies[i]) && r.score % 10 == 0 then 1 else 0)
    ensures r.gameOver <==>
      w.gameOver || CheckCollision(w.carX, w.carY, r.enemies[i].x, r.enemies[i].y)
  {
    var e := Advanced(w.enemies[i], w.baseSpeed, d);
    var past := PastBoard(w.enemies[i]);
    var score := if past then w.score + 1 else w.score;
    var base := if past && score % 10 == 0 then w.baseSpeed + 1 else w.baseSpeed;
    w.(enemies := w.enemies[i := e], score := score, baseSpeed := base,
       gameOver := w.gameOver || CheckCollision(w.carX, w.carY, e.x, e.y))
  }

  /** The enemy loop after its first k iterations. */
  function EnemyLoop(w: World, ds: seq<Redraw>, k: nat): (r: World)
    requires k <= |w.enemies| == |ds| && ValidRedraws(ds)
    ensures |r.enemies| == |w.enemies|
    ensures r.carX == w.carX && r.carY == w.carY && r.isPaused == w.isPaused
    ensures forall j :: k <= j < |w.enemies| ==> r.enemies[j] == w.enemies[j]
    ensures w.score <= r.score <= w.score + k
    ensures w.baseSpeed <= r.baseSpeed
    ensures w.gameOver ==> r.gameOver
    decreases k
  {
    if k == 0 then w else EnemyStep(EnemyLoop(w, ds, k - 1), k - 1, ds[k - 1])
  }

  /**
    One frame of `main` after the key events: nothing moves while the round
    is over or paused; otherwise the car moves, the enemy loop runs, and
    reaching the top edge ends the round.
  */
  function NextFrame(w: World, keys: Keys, ds: seq<Redraw>): (r: World)
    requires |ds| == |w.enemies| && ValidRedraws(ds)
    ensures w.gameOver || w.isPaused ==> r == w
    ensures |r.enemies| == |w.enemies| && r.isPaused == w.isPaused
    ensures w.gameOver ==> r.gameOver
    ensures !w.gameOver && !w.isPaused ==> OnRoad(r.carX, r.carY) && (r.carY <= 0 ==> r.gameOver)
    ensures !w.gameOver && !w.isPaused ==> (r.carX, r.carY) == MoveCar(w.carX, w.carY, keys)
  {
    if w.gameOver || w.isPaused then w
    else
      var p := MoveCar(w.carX, w.carY, keys);
      var after := EnemyLoop(w.(carX := p.0, carY := p.1), ds, |w.enemies|);
      if after.carY <= 0 then after.(gameOver := true) else after
  }

  /**
    The banner of the end screen (also drawn while paused): it is decided by
    the car's height alone, so a round ended by a collision at the top edge
    is still announced as won.
  */
  function EndBanner(w: World): (b: Banner)
    ensures b == YouWin <==> w.carY <= 0
  {
    if w.carY <= 0 then YouWin else GameOver
  }

  /**
    How a frame of play that ends the round is announced: if the car is
    still below the top edge, an enemy hit it and the screen says GAME OVER;
    if the car reached the top edge, the screen says YOU WIN whether or not
    an enemy hit it in the same frame.
  */
  lemma FrameBanner(w: World, keys: Keys, ds: seq<Redraw>)
    requires |ds| == |w.enemies| && ValidRedraws(ds)
    requires !w.gameOver && !w.isPaused
    ensures var r := NextFrame(w, keys, ds);
      (r.gameOver && r.carY > 0 ==>
        EndBanner(r) == GameOver &&
        exists i :: 0 <= i < |r.enemies| && CheckCollision(r.carX, r.carY, r.enemies[i].x, r.enemies[i].y)) &&
      (r.carY <= 0 ==> r.gameOver && EndBanner(r) == YouWin)
  {
    FrameGameOver(w, keys, ds);
  }

  /**
    A frame, from a state the game can reach, in which the car reaches the
    top edge while a recycled enemy lands on its lane, edge to edge: the
    round ends by a collision, and the end screen still says YOU WIN.
  */
  lemma CollisionAtTopShowsWin()
    ensures var w := World(250, 20, 0, 5, false, false,
                           [Enemy(250, 795, 7), Enemy(150, 0, 5), Enemy(450, 0, 5)]);
      var ds := [Redraw(1, 0), Redraw(0, 0), Redraw(0, 0)];
      var r := NextFrame(w, Keys(false, false, true, false), ds);
      Inv(w) && r.gameOver && CheckCollision(r.carX, r.carY, r.enemies[0].x, r.enemies[0].y) &&
      EndBanner(r) == YouWin
  {
    var w := World(250, 20, 0, 5, false, false,
                   [Enemy(250, 795, 7), Enemy(150, 0, 5), Enemy(450, 0, 5)]);
    var ds := [Redraw(1, 0), Redraw(0, 0), Redraw(0, 0)];
    var keys := Keys(false, false, true, false);
    assert MoveCar(250, 20, keys) == (250, 0);
    var moved := w.(carX := 250, carY := 0);
    LoopEnemy(moved, ds, 3, 0);
    assert EnemyLoop(moved, ds, 0) == moved;
  }

  /** Number of enemies of es that leave the board in the coming frame. */
  function CountPast(es: seq<Enemy>): (n: nat)
    ensures n <= |es|
  {
    if es == [] then 0
    else CountPast(es[..|es| - 1]) + (if PastBoard(es[|es| - 1]) then 1 else 0)
  }

  lemma {:induction false} CountPastAll(es: seq<Enemy>)
    requires forall i :: 0 <= i < |es| ==> PastBoard(es[i])
    ensures CountPast(es) == |es|
  {
    if es != [] {
      CountPastAll(es[..|es| - 1]);
    }
  }

  /** The score grows by exactly the number of recycles of the first k enemies. */
  lemma {:induction false} LoopScore(w: World, ds: seq<Redraw>, k: nat)
    requires k <= |w.enemies| == |ds| && ValidRedraws(ds)
    ensures EnemyLoop(w, ds, k).score == w.score + CountPast(w.enemies[..k])
  {
    if k > 0 {
      LoopScore(w, ds, k - 1);
      assert w.enemies[..k][..k - 1] == w.enemies[..k - 1];
    }
  }

  /**
    The base speed grows by one for each multiple of ten the score passes
    through, and by nothing else.
  */
  lemma {:induction false} LoopBaseSpeed(w: World, ds: seq<Redraw>, k: nat)
    requires k <= |w.enemies| == |ds| && ValidRedraws(ds)
    ensures EnemyLoop(w, ds, k).baseSpeed ==
      w.baseSpeed + EnemyLoop(w, ds, k).score / 10 - w.score / 10
  {
    if k > 0 {
      LoopBaseSpeed(w, ds, k - 1);
    }
  }

  /** The base speed seen by iteration i is no larger than after iteration k. */
  lemma {:induction false} LoopBaseMonotone(w: World, ds: seq<Redraw>, i: nat, k: nat)
    requires i <= k <= |w.enemies| == |ds| && ValidRedraws(ds)
    ensures EnemyLoop(w, ds, i).baseSpeed <= EnemyLoop(w, ds, k).baseSpeed
  {
    if i < k {
      LoopBaseMonotone(w, ds, i, k - 1);
      LoopScore(w, ds, k - 1);
    }
  }

  /**
    After k iterations, enemy i (one of the first k) has been moved or
    recycled exactly once, the recycle using the base speed of that moment.
  */
  lemma {:induction false} LoopEnemy(w: World, ds: seq<Redraw>, k: nat, i: nat)
    requires i < k <= |w.enemies| == |ds| && ValidRedraws(ds)
    ensures EnemyLoop(w, ds, k).enemies[i] ==
      Advanced(w.enemies[i], EnemyLoop(w, ds, i).baseSpeed, ds[i])
  {
    if i < k - 1 {
      LoopEnemy(w, ds, k - 1, i);
    }
  }

  /**
    The loop ends the round exactly when the round was already over or one
    of the first k enemies, where it now stands, meets the car.
  */
  lemma {:induction false} LoopGameOver(w: World, ds: seq<Redraw>, k: nat)
    requires k <= |w.enemies| == |ds| && ValidRedraws(ds)
    ensures var r := EnemyLoop(w, ds, k);
      r.gameOver <==> (w.gameOver ||
        exists i :: 0 <= i < k && CheckCollision(w.carX, w.carY, r.enemies[i].x, r.enemies[i].y))
  {
    if k > 0 {
      LoopGameOver(w, ds, k - 1);
      var prev := EnemyLoop(w, ds, k - 1);
      var r := EnemyLoop(w, ds, k);
      assert forall i :: 0 <= i < k - 1 ==> r.enemies[i] == prev.enemies[i];
    }
  }

  /**
    In a frame of play the score rises by exactly the number of recycled
    enemies, and the base speed by the number of multiples of ten passed.
  */
  lemma FrameScore(w: World, keys: Keys, ds: seq<Redraw>)
    requires |ds| == |w.enemies| && ValidRedraws(ds)
    requires !w.gameOver && !w.isPaused
    ensures var r := NextFrame(w, keys, ds);
      r.score == w.score + CountPast(w.enemies) &&
      r.baseSpeed == w.baseSpeed + r.score / 10 - w.score / 10
  {
    var p := MoveCar(w.carX, w.carY, keys);
    var moved := w.(carX := p.0, carY := p.1);
    LoopScore(moved, ds, |w.enemies|);
    LoopBaseSpeed(moved, ds, |w.enemies|);
    assert moved.enemies[..|w.enemies|] == w.enemies;
  }

  /**
    In a frame of play each enemy past the board is recycled above it on a
    lane with a speed in [base, base + 2] for a base speed of this frame;
    every other enemy only falls by its speed.
  */
  lemma FrameEnemies(w: World, keys: Keys, ds: seq<Redraw>)
    requires |ds| == |w.enemies| && ValidRedraws(ds)
    requires !w.gameOver && !w.isPaused
    ensures var r := NextFrame(w, keys, ds);
      forall i :: 0 <= i < |w.enemies| ==>
        if PastBoard(w.enemies[i]) then
          r.enemies[i].y == -CarHeight && IsLane(r.enemies[i].x) &&
          w.baseSpeed <= r.enemies[i].speed <= r.baseSpeed + 2
        else
          r.enemies[i] == w.enemies[i].(y := w.enemies[i].y + w.enemies[i].speed)
  {
    var p := MoveCar(w.carX, w.carY, keys);
    var moved := w.(carX := p.0, carY := p.1);
    var n := |w.enemies|;
    forall i | 0 <= i < n
      ensures EnemyLoop(moved, ds, n).enemies[i] ==
        Advanced(w.enemies[i], EnemyLoop(moved, ds, i).baseSpeed, ds[i])
      ensures EnemyLoop(moved, ds, i).baseSpeed <= EnemyLoop(moved, ds, n).baseSpeed
    {
      LoopEnemy(moved, ds, n, i);
      LoopBaseMonotone(moved, ds, i, n);
    }
  }

  /**
    A frame of play ends the round exactly when, at the end of the frame,
    some enemy meets the car or the car has reached the top edge.
  */
  lemma FrameGameOver(w: World, keys: Keys, ds: seq<Redraw>)
    requires |ds| == |w.enemies| && ValidRedraws(ds)
    requires !w.gameOver && !w.isPaused
    ensures var r := NextFrame(w, keys, ds);
      r.gameOver <==> (r.carY <= 0 ||
        exists i :: 0 <= i < |r.enemies| && CheckCollision(r.carX, r.carY, r.enemies[i].x, r.enemies[i].y))
  {
    var p := MoveCar(w.carX, w.carY, keys);
    var moved := w.(carX := p.0, carY := p.1);
    LoopGameOver(moved, ds, |w.enemies|);
  }

  /** Invariant of one enemy while the base speed is base. */
  predicate EnemyInv(e: Enemy, base: int) {
    IsLane(e.x) && -CarHeight <= e.y <= WindowHeight + 300 &&
    InitialBaseSpeed <= e.speed <= base + 2
  }

  /**
    The state invariant: three enemies, the car on the road grid, a
    non-negative score, a base speed no lower than its start value.
  */
  predicate Inv(w: World) {
    |w.enemies| == MaxEnemies && OnRoad(w.carX, w.carY) && OnGrid(w.carX, w.carY) &&
    w.score >= 0 && w.baseSpeed >= InitialBaseSpeed &&
    forall i :: 0 <= i < |w.enemies| ==> EnemyInv(w.enemies[i], w.baseSpeed)
  }

  lemma RestartedInv(w: World, ss: seq<Spawn>)
    requires ValidSpawns(ss) && w.baseSpeed >= InitialBaseSpeed
    ensures Inv(Restarted(w, ss))
  {
  }

  lemma AfterKeyInv(w: World, key: Key, ss: seq<Spawn>)
    requires ValidSpawns(ss) && Inv(w)
    ensures Inv(AfterKey(w, key, ss))
  {
  }

  lemma {:induction false} NextFrameInv(w: World, keys: Keys, ds: seq<Redraw>)
    requires |ds| == |w.enemies| && ValidRedraws(ds) && Inv(w)
    ensures Inv(NextFrame(w, keys, ds))
  {
    if !w.gameOver && !w.isPaused {
      var r := NextFrame(w, keys, ds);
      MoveCarStaysOnGrid(w.carX, w.carY, keys);
      FrameEnemies(w, keys, ds);
      FrameScore(w, keys, ds);
      forall i | 0 <= i < |r.enemies|
        ensures EnemyInv(r.enemies[i], r.baseSpeed)
      {
        assert EnemyInv(w.enemies[i], w.baseSpeed);
      }
    }
  }

  /**
    Enemies start below the board, so the first frame of play after a
    restart recycles all three of them: the score becomes 3, every enemy is
    just above the top, and the round goes on.
  */
  lemma FirstFrameRecyclesAll(w: World, ss: seq<Spawn>, keys: Keys, ds: seq<Redraw>)
    requires ValidSpawns(ss) && |ds| == MaxEnemies && ValidRedraws(ds)
    requires w.baseSpeed >= InitialBaseSpeed
    ensures var r := NextFrame(Restarted(w, ss), keys, ds);
      r.score == 3 && r.baseSpeed == w.baseSpeed && !r.gameOver &&
      forall i :: 0 <= i < |r.enemies| ==> r.enemies[i].y == -CarHeight
  {
    var w0 := Restarted(w, ss);
    var r := NextFrame(w0, keys, ds);
    CountPastAll(w0.enemies);
    FrameScore(w0, keys, ds);
    FrameEnemies(w0, keys, ds);
    FrameGameOver(w0, keys, ds);
    assert r.carY >= FloorY - CarSpeed;
    forall i | 0 <= i < |r.enemies|
      ensures !CheckCollision(r.carX, r.carY, r.enemies[i].x, r.enemies[i].y)
    {
    }
  }

  /**
    The pygame program's globals. The methods are the state-changing parts
    of p1.py; each is proved to produce the World its function describes.
  */
  class Game {
    var carPosX: int
    var carPosY: int
    var score: int
    var gameOver: bool
    var isPaused: bool
    var enemyBaseSpeed: int
    var enemies: seq<Enemy>

    function State(): World
      reads this
    {
      World(carPosX, carPosY, score, enemyBaseSpeed, gameOver, isPaused, enemies)
    }

    ghost predicate Valid()
      reads this
    {
      Inv(State())
    }

    /** Program start: the globals' initial values, then `reset_game()`. */
    constructor (ss: seq<Spawn>)
      requires ValidSpawns(ss)
      ensures Valid()
      ensures State() == World(StartX, FloorY, 0, InitialBaseSpeed, false, false,
                               FreshEnemies(InitialBaseSpeed, ss))
    {
      carPosX := StartX;
      carPosY := FloorY;
      score := 0;
      gameOver := false;
      isPaused := false;
      enemyBaseSpeed := InitialBaseSpeed;
      enemies := FreshEnemies(InitialBaseSpeed, ss);
    }

    method ResetEnemies(ss: seq<Spawn>)
      requires ValidSpawns(ss)
      modifies this
      ensures State() == old(State()).(enemies := FreshEnemies(old(enemyBaseSpeed), ss))
    {
      enemies := FreshEnemies(enemyBaseSpeed, ss);
    }

    method ResetGame(ss: seq<Spawn>)
      requires ValidSpawns(ss)
      modifies this
      requires Valid()
      ensures State() == Restarted(old(State()), ss)
      ensures Valid()
    {
      carPosX := StartX;
      carPosY := FloorY;
      score := 0;
      gameOver := false;
      isPaused := false;
      ResetEnemies(ss);
      RestartedInv(old(State()), ss);
    }

    /** The key-down handling at the top of each frame (R and P). */
    method HandleKey(key: Key, ss: seq<Spawn>)
      requires ValidSpawns(ss) && Valid()
      modifies this
      ensures State() == AfterKey(old(State()), key, ss)
      ensures Valid()
    {
      if key == KeyR && gameOver {
        ResetGame(ss);
      }
      if key == KeyP {
        isPaused := !isPaused;
      }
      AfterKeyInv(old(State()), key, ss);
    }

    /** Arrow-key movement followed by the clamp to the road. */
    method MovePlayer(keys: Keys)
      modifies this
      ensures State() == old(State()).(carX := MoveCar(old(carPosX), old(carPosY), keys).0,
                                       carY := MoveCar(old(carPosX), old(carPosY), keys).1)
    {
      if keys.left && carPosX > RoadLeft {
        carPosX := carPosX - CarSpeed;
      }
      if keys.right && carPosX < RoadRight {
        carPosX := carPosX + CarSpeed;
      }
      if keys.up && carPosY > 0 {
        carPosY := carPosY - CarSpeed;
      }
      if keys.down && carPosY < FloorY {
        carPosY := carPosY + CarSpeed;
      }
      carPosX := Clamp(carPosX, RoadLeft, RoadRight);
      carPosY := Clamp(carPosY, 0, FloorY);
    }

    /** One pass of the body of `for enemy in enemies`, on enemy i. */
    method AdvanceEnemy(i: nat, d: Redraw)
      requires i < |enemies| && ValidRedraw(d)
      modifies this
      ensures State() == EnemyStep(old(State()), i, d)
    {
      var e := enemies[i];
      e := e.(y := e.y + e.speed);
      if e.y > WindowHeight {
        e := Enemy(RoadLeft + d.lane * LaneWidth, -CarHeight, enemyBaseSpeed + d.jitter);
        score := score + 1;
        if score % 10 == 0 {
          enemyBaseSpeed := enemyBaseSpeed + 1;
        }
      }
      enemies := enemies[i := e];
      if CheckCollision(carPosX, carPosY, e.x, e.y) {
        gameOver := true;
      }
      ghost var next := EnemyStep(old(State()), i, d);
      assert next.enemies == enemies && next.score == score;
      assert next.baseSpeed == enemyBaseSpeed && next.gameOver == gameOver;
    }

    /** The simulation part of one frame of `main`. */
    method Update(keys: Keys, ds: seq<Redraw>)
      requires |ds| == MaxEnemies && ValidRedraws(ds) && Valid()
      modifies this
      ensures State() == NextFrame(old(State()), keys, ds)
      ensures Valid()
    {
      NextFrameInv(State(), keys, ds);
      if !gameOver && !isPaused {
        MovePlayer(keys);
        ghost var moved := State();
        var i := 0;
        while i < |enemies|
          invariant 0 <= i <= |enemies| == |moved.enemies|
          invariant State() == EnemyLoop(moved, ds, i)
        {
          AdvanceEnemy(i, ds[i]);
          i := i + 1;
        }
        if carPosY <= 0 {
          gameOver := true;
        }
      }
    }
  }
}
