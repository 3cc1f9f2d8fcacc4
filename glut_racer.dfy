/**
  The GLUT variant of the lane-racing game (racing_game.cpp; y grows
  upward). The player car sits at a fixed height and moves only sideways;
  three enemy cars fall towards it, respawn above the board once they drop
  below it, and each respawn scores a point; every tenth point raises the
  base speed of new enemies.

  The program's globals are gathered into the class `RacingGame`, whose
  enemy array is written in place; its methods are proved against the
  functions on `World` values below, and the properties of the game are
  lemmas about those functions.
*/
module GlutRacer {

  // Constants of the game (racing_game.cpp:6-11, 17, 23).
  const WindowHeight: int := 800
  const CarWidth: int := 50
  const CarHeight: int := 100
  const LaneWidth: int := 100
  const MaxEnemies: nat := 3
  const InitialBaseSpeed: int := 5
  const CarSpeed: int := 20
  const CarY: int := 50
  const RoadLeft: int := 150
  const RoadRight: int := 450
  const StartX: int := 250

  /** `struct Enemy`: bottom-left corner and the distance it falls per tick. */
  datatype Enemy = Enemy(x: int, y: int, speed: int)

  /** The draws of one (re)spawn: rand() % 4, rand() % 300 and rand() % 3. */
  datatype Spawn = Spawn(lane: int, offset: int, jitter: int)

  /** Special keys reported to `specialKeys`. */
  datatype SpecialKey = KeyLeft | KeyRight | OtherSpecial

  /**
    The program's globals: carPosX, score, the two flags, enemyBaseSpeed and
    the contents of the enemies array.
  */
  datatype World = World(carPosX: int, score: int, gameOver: bool, isPaused: bool,
                         enemyBaseSpeed: int, enemies: seq<Enemy>)

  predicate ValidSpawn(s: Spawn) {
    0 <= s.lane <= 3 && 0 <= s.offset <= 299 && 0 <= s.jitter <= 2
  }

  predicate ValidSpawns(ss: seq<Spawn>) {
    |ss| == MaxEnemies && forall i :: 0 <= i < |ss| ==> ValidSpawn(ss[i])
  }

  /** The four lane origins an enemy can be placed on. */
  predicate IsLane(x: int) {
    x == 150 || x == 250 || x == 350 || x == 450
  }

  /** The positions the player car can take: 150 + 20k within [150, 450]. */
  predicate OnGrid(x: int) {
    RoadLeft <= x <= RoadRight && (x - RoadLeft) % CarSpeed == 0
  }

  function Abs(n: int): nat {
    if n < 0 then -n else n
  }

  /**
    Closed-interval overlap of two car boxes, CarWidth x CarHeight each:
    they meet exactly when their corners are within one car size on each
    axis, touching edges included.
  */
  function CheckCollision(carX: int, carY: int, enemyX: int, enemyY: int): (hit: bool)
    ensures hit <==> Abs(carX - enemyX) <= CarWidth && Abs(carY - enemyY) <= CarHeight
  {
    !(carX + CarWidth < enemyX || carX > enemyX + CarWidth ||
      carY + CarHeight < enemyY || carY > enemyY + CarHeight)
  }

  lemma CollisionSymmetric(x1: int, y1: int, x2: int, y2: int)
    ensures CheckCollision(x1, y1, x2, y2) == CheckCollision(x2, y2, x1, y1)
  {
  }

  lemma CollisionReflexive(x: int, y: int)
    ensures CheckCollision(x, y, x, y)
  {
  }

  lemma CollisionTouchingEdges(x: int, y: int)
    ensures CheckCollision(x, y, x + CarWidth, y)
    ensures CheckCollision(x, y, x, y + CarHeight)
    ensures !CheckCollision(x, y, x + CarWidth + 1, y)
    ensures !CheckCollision(x, y, x, y + CarHeight + 1)
  {
  }

  /** An enemy placed above the board on a random lane with a random speed. */
  function Spawned(base: int, s: Spawn): (e: Enemy)
    requires ValidSpawn(s)
    ensures IsLane(e.x)
    ensures WindowHeight <= e.y <= WindowHeight + 299
    ensures base <= e.speed <= base + 2
  {
    Enemy(RoadLeft + s.lane * LaneWidth, WindowHeight + s.offset, base + s.jitter)
  }

  /** The array contents written by `resetEnemies`. */
  function SpawnAll(base: int, ss: seq<Spawn>): (es: seq<Enemy>)
    requires ValidSpawns(ss)
    ensures |es| == MaxEnemies
    ensures forall i :: 0 <= i < |es| ==>
      IsLane(es[i].x) && WindowHeight <= es[i].y <= WindowHeight + 299 &&
      base <= es[i].speed <= base + 2
  {
    seq(MaxEnemies, i requires 0 <= i < MaxEnemies => Spawned(base, ss[i]))
  }

  /**
    `resetGame`: the car back in the middle, score and flags cleared, the
    base speed back at 5, and fresh enemies drawn with that speed.
  */
  function AfterResetGame(w: World, ss: seq<Spawn>): (r: World)
    requires ValidSpawns(ss)
    ensures r.carPosX == StartX && r.score == 0 && !r.gameOver && !r.isPaused
    ensures r.enemyBaseSpeed == InitialBaseSpeed
    ensures r.enemies == SpawnAll(InitialBaseSpeed, ss)
  {
    World(StartX, 0, false, false, InitialBaseSpeed, SpawnAll(InitialBaseSpeed, ss))
  }

  /** A reset does not depend on the state it starts from. */
  lemma ResetForgetsState(w1: World, w2: World, ss: seq<Spawn>)
    requires ValidSpawns(ss)
    ensures AfterResetGame(w1, ss) == AfterResetGame(w2, ss)
  {
  }

  /**
    `keyboard`: 'r' or 'R' resets in every state, 'p' or 'P' flips the
    pause flag; other keys change nothing (Escape ends the process, which
    is not part of the model).
  */
  function AfterKeyboard(w: World, key: char, ss: seq<Spawn>): (r: World)
    requires ValidSpawns(ss)
    ensures key == 'r' || key == 'R' ==> r == AfterResetGame(w, ss)
    ensures key == 'p' || key == 'P' ==> r == w.(isPaused := !w.isPaused)
    ensures key !in {'r', 'R', 'p', 'P'} ==> r == w
    ensures w.gameOver && !r.gameOver ==> key == 'r' || key == 'R'
  {
    var w1 := if key == 'r' || key == 'R' then AfterResetGame(w, ss) else w;
    if key == 'p' || key == 'P' then w1.(isPaused := !w1.isPaused) else w1
  }

  lemma PauseTwiceRestores(w: World, ss: seq<Spawn>)
    requires ValidSpawns(ss)
    ensures AfterKeyboard(AfterKeyboard(w, 'P', ss), 'P', ss) == w
  {
  }

  /**
    `specialKeys`: while the round is on, Left and Right move the car one
    step unless it is already at that edge of the road; otherwise nothing
    changes. Only the car's position can change.
  */
  function AfterSpecialKey(w: World, key: SpecialKey): (r: World)
    ensures w.gameOver || w.isPaused ==> r == w
    ensures r == w.(carPosX := r.carPosX)
    ensures Abs(r.carPosX - w.carPosX) <= CarSpeed
    ensures !w.gameOver && !w.isPaused && key == KeyLeft ==>
      r.carPosX == (if w.carPosX > RoadLeft then w.carPosX - CarSpeed else w.carPosX)
    ensures !w.gameOver && !w.isPaused && key == KeyRight ==>
      r.carPosX == (if w.carPosX < RoadRight then w.carPosX + CarSpeed else w.carPosX)
    ensures key == OtherSpecial ==> r == w
  {
    if w.gameOver || w.isPaused then w
    else if key == KeyLeft && w.carPosX > RoadLeft then w.(carPosX := w.carPosX - CarSpeed)
    else if key == KeyRight && w.carPosX < RoadRight then w.(carPosX := w.carPosX + CarSpeed)
    else w
  }

  /** The guards keep the car on its grid of positions between 150 and 450. */
  lemma SpecialKeyStaysOnGrid(w: World, key: SpecialKey)
    requires OnGrid(w.carPosX)
    ensures OnGrid(AfterSpecialKey(w, key).carPosX)
  {
  }

  /** An enemy drops below the board in this tick. */
  predicate FellOff(e: Enemy) {
    e.y - e.speed < -CarHeight
  }

  /**
    One enemy's move in a tick: it falls by its speed, and once it is below
    the board it is respawned above it with fresh draws.
  */
  function Fallen(e: Enemy, base: int, s: Spawn): (r: Enemy)
    requires ValidSpawn(s)
    ensures FellOff(e) ==> IsLane(r.x) && WindowHeight <= r.y <= WindowHeight + 299 &&
                           base <= r.speed <= base + 2
    ensures !FellOff(e) ==> r == e.(y := e.y - e.speed)
  {
    var moved := e.(y := e.y - e.speed);
    if moved.y < -CarHeight then Spawned(base, s) else moved
  }

  /**
    The body of the `timer` loop for enemy i: move or respawn it, score the
    respawn (raising the base speed on every tenth point), and end the
    round if it now meets the car. Nothing else changes.
  */
  function TimerStep(w: World, i: nat, s: Spawn): (r: World)
    requires i < |w.enemies| && ValidSpawn(s)
    ensures |r.enemies| == |w.enemies|
    ensures r.carPosX == w.carPosX && r.isPaused == w.isPaused
    ensures forall j :: 0 <= j < |w.enemies| && j != i ==> r.enemies[j] == w.enemies[j]
    ensures r.score == w.score + (if FellOff(w.enemies[i]) then 1 else 0)
    ensures r.enemyBaseSpeed ==
      w.enemyBaseSpeed + (if FellOff(w.enemies[i]) && r.score % 10 == 0 then 1 else 0)
    ensures r.gameOver <==>
      w.gameOver || CheckCollision(w.carPosX, CarY, r.enemies[i].x, r.enemies[i].y)
  {
    var e := Fallen(w.enemies[i], w.enemyBaseSpeed, s);
    var fell := FellOff(w.enemies[i]);
    var score := if fell then w.score + 1 else w.score;
    var base := if fell && score % 10 == 0 then w.enemyBaseSpeed + 1 else w.enemyBaseSpeed;
    w.(enemies := w.enemies[i := e], score := score, enemyBaseSpeed := base,
       gameOver := w.gameOver || CheckCollision(w.carPosX, CarY, e.x, e.y))
  }

  /** The `timer` loop after its first k iterations. */
  function TimerLoop(w: World, ss: seq<Spawn>, k: nat): (r: World)
    requires k <= |w.enemies| == |ss| && forall i :: 0 <= i < |ss| ==> ValidSpawn(ss[i])
    ensures |r.enemies| == |w.enemies|
    ensures r.carPosX == w.carPosX && r.isPaused == w.isPaused
    ensures forall j :: k <= j < |w.enemies| ==> r.enemies[j] == w.enemies[j]
    ensures w.score <= r.score <= w.score + k
    ensures w.enemyBaseSpeed <= r.enemyBaseSpeed
    ensures w.gameOver ==> r.gameOver
    decreases k
  {
    if k == 0 then w else TimerStep(TimerLoop(w, ss, k - 1), k - 1, ss[k - 1])
  }

  /** One call of `timer`: nothing moves while the round is over or paused. */
  function AfterTimer(w: World, ss: seq<Spawn>): (r: World)
    requires |w.enemies| == MaxEnemies && ValidSpawns(ss)
    ensures w.gameOver || w.isPaused ==> r == w
    ensures |r.enemies| == |w.enemies|
    ensures r.carPosX == w.carPosX && r.isPaused == w.isPaused
    ensures w.gameOver ==> r.gameOver
    ensures w.score <= r.score && w.enemyBaseSpeed <= r.enemyBaseSpeed
  {
    if w.gameOver || w.isPaused then w else TimerLoop(w, ss, |w.enemies|)
  }

  /** Number of enemies of es that drop below the board in the coming tick. */
  function CountFallen(es: seq<Enemy>): (n: nat)
    ensures n <= |es|
  {
    if es == [] then 0
    else CountFallen(es[..|es| - 1]) + (if FellOff(es[|es| - 1]) then 1 else 0)
  }

  lemma {:induction false} CountFallenNone(es: seq<Enemy>)
    requires forall i :: 0 <= i < |es| ==> !FellOff(es[i])
    ensures CountFallen(es) == 0
  {
    if es != [] {
      CountFallenNone(es[..|es| - 1]);
    }
  }

  /** The score grows by exactly the number of respawns among the first k enemies. */
  lemma {:induction false} LoopScore(w: World, ss: seq<Spawn>, k: nat)
    requires k <= |w.enemies| == |ss| && forall i :: 0 <= i < |ss| ==> ValidSpawn(ss[i])
    ensures TimerLoop(w, ss, k).score == w.score + CountFallen(w.enemies[..k])
  {
    if k > 0 {
      LoopScore(w, ss, k - 1);
      assert w.enemies[..k][..k - 1] == w.enemies[..k - 1];
    }
  }

  /**
    The base speed grows by one for each multiple of ten the score passes
    through, and by nothing else.
  */
  lemma {:induction false} LoopBaseSpeed(w: World, ss: seq<Spawn>, k: nat)
    requires k <= |w.enemies| == |ss| && forall i :: 0 <= i < |ss| ==> ValidSpawn(ss[i])
    ensures TimerLoop(w, ss, k).enemyBaseSpeed ==
      w.enemyBaseSpeed + TimerLoop(w, ss, k).score / 10 - w.score / 10
  {
    if k > 0 {
      LoopBaseSpeed(w, ss, k - 1);
    }
  }

  /** The base speed seen by iteration i is no larger than after iteration k. */
  lemma {:induction false} LoopBaseMonotone(w: World, ss: seq<Spawn>, i: nat, k: nat)
    requires i <= k <= |w.enemies| == |ss| && forall j :: 0 <= j < |ss| ==> ValidSpawn(ss[j])
    ensures TimerLoop(w, ss, i).enemyBaseSpeed <= TimerLoop(w, ss, k).enemyBaseSpeed
  {
    if i < k {
      LoopBaseMonotone(w, ss, i, k - 1);
    }
  }

  /**
    After k iterations, enemy i (one of the first k) has been moved or
    respawned exactly once, the respawn using the base speed of that moment.
  */
  lemma {:induction false} LoopEnemy(w: World, ss: seq<Spawn>, k: nat, i: nat)
    requires i < k <= |w.enemies| == |ss| && forall j :: 0 <= j < |ss| ==> ValidSpawn(ss[j])
    ensures TimerLoop(w, ss, k).enemies[i] ==
      Fallen(w.enemies[i], TimerLoop(w, ss, i).enemyBaseSpeed, ss[i])
  {
    if i < k - 1 {
      LoopEnemy(w, ss, k - 1, i);
    }
  }

  /**
    The loop ends the round exactly when the round was already over or one
    of the first k enemies, where it now stands, meets the car.
  */
  lemma {:induction false} LoopGameOver(w: World, ss: seq<Spawn>, k: nat)
    requires k <= |w.enemies| == |ss| && forall i :: 0 <= i < |ss| ==> ValidSpawn(ss[i])
    ensures var r := TimerLoop(w, ss, k);
      r.gameOver <==> (w.gameOver ||
        exists i :: 0 <= i < k && CheckCollision(w.carPosX, CarY, r.enemies[i].x, r.enemies[i].y))
  {
    if k > 0 {
      LoopGameOver(w, ss, k - 1);
      var prev := TimerLoop(w, ss, k - 1);
      var r := TimerLoop(w, ss, k);
      assert forall i :: 0 <= i < k - 1 ==> r.enemies[i] == prev.enemies[i];
    }
  }

  /**
    A tick of play raises the score by exactly the number of respawned
    enemies and the base speed by the number of multiples of ten passed.
  */
  lemma TimerScore(w: World, ss: seq<Spawn>)
    requires |w.enemies| == MaxEnemies && ValidSpawns(ss)
    requires !w.gameOver && !w.isPaused
    ensures var r := AfterTimer(w, ss);
      r.score == w.score + CountFallen(w.enemies) &&
      r.enemyBaseSpeed == w.enemyBaseSpeed + r.score / 10 - w.score / 10
  {
    LoopScore(w, ss, |w.enemies|);
    LoopBaseSpeed(w, ss, |w.enemies|);
    assert w.enemies[..|w.enemies|] == w.enemies;
  }

  /**
    In a tick of play each enemy that drops below the board is respawned
    above it on a lane with a speed in [base, base + 2] for a base speed of
    this tick; every other enemy only falls by its speed.
  */
  lemma TimerEnemies(w: World, ss: seq<Spawn>)
    requires |w.enemies| == MaxEnemies && ValidSpawns(ss)
    requires !w.gameOver && !w.isPaused
    ensures var r := AfterTimer(w, ss);
      forall i :: 0 <= i < |w.enemies| ==>
        if FellOff(w.enemies[i]) then
          IsLane(r.enemies[i].x) && WindowHeight <= r.enemies[i].y <= WindowHeight + 299 &&
          w.enemyBaseSpeed <= r.enemies[i].speed <= r.enemyBaseSpeed + 2
        else
          r.enemies[i] == w.enemies[i].(y := w.enemies[i].y - w.enemies[i].speed)
  {
    var n := |w.enemies|;
    forall i | 0 <= i < n
      ensures TimerLoop(w, ss, n).enemies[i] ==
        Fallen(w.enemies[i], TimerLoop(w, ss, i).enemyBaseSpeed, ss[i])
      ensures TimerLoop(w, ss, i).enemyBaseSpeed <= TimerLoop(w, ss, n).enemyBaseSpeed
    {
      LoopEnemy(w, ss, n, i);
      LoopBaseMonotone(w, ss, i, n);
    }
  }

  /**
    A tick of play ends the round exactly when, at the end of the tick,
    some enemy meets the car at (carPosX, 50).
  */
  lemma TimerGameOver(w: World, ss: seq<Spawn>)
    requires |w.enemies| == MaxEnemies && ValidSpawns(ss)
    requires !w.gameOver && !w.isPaused
    ensures var r := AfterTimer(w, ss);
      r.gameOver <==>
        exists i :: 0 <= i < |r.enemies| && CheckCollision(r.carPosX, CarY, r.enemies[i].x, r.enemies[i].y)
  {
    LoopGameOver(w, ss, |w.enemies|);
  }

  /** Invariant of one enemy while the base speed is base. */
  predicate EnemyInv(e: Enemy, base: int) {
    IsLane(e.x) && -CarHeight <= e.y <= WindowHeight + 299 &&
    InitialBaseSpeed <= e.speed <= base + 2
  }

  /**
    The state invariant: three enemies, the car on its grid, a non-negative
    score, and a base speed of exactly 5 plus one per ten points scored.
  */
  predicate Inv(w: World) {
    |w.enemies| == MaxEnemies && OnGrid(w.carPosX) && w.score >= 0 &&
    w.enemyBaseSpeed == InitialBaseSpeed + w.score / 10 &&
    forall i :: 0 <= i < |w.enemies| ==> EnemyInv(w.enemies[i], w.enemyBaseSpeed)
  }

  lemma ResetInv(w: World, ss: seq<Spawn>)
    requires ValidSpawns(ss)
    ensures Inv(AfterResetGame(w, ss))
  {
  }

  lemma KeyboardInv(w: World, key: char, ss: seq<Spawn>)
    requires ValidSpawns(ss) && Inv(w)
    ensures Inv(AfterKeyboard(w, key, ss))
  {
    ResetInv(w, ss);
  }

  lemma SpecialKeyInv(w: World, key: SpecialKey)
    requires Inv(w)
    ensures Inv(AfterSpecialKey(w, key))
  {
    SpecialKeyStaysOnGrid(w, key);
  }

  lemma {:induction false} TimerInv(w: World, ss: seq<Spawn>)
    requires ValidSpawns(ss) && Inv(w)
    ensures Inv(AfterTimer(w, ss))
  {
    if !w.gameOver && !w.isPaused {
      var r := AfterTimer(w, ss);
      TimerEnemies(w, ss);
      TimerScore(w, ss);
      forall i | 0 <= i < |r.enemies|
        ensures EnemyInv(r.enemies[i], r.enemyBaseSpeed)
      {
        assert EnemyInv(w.enemies[i], w.enemyBaseSpeed);
      }
    }
  }

  /**
    Under the invariant, the base speed is never below 5, and it moves in
    step with the score: one more for each multiple of ten reached.
  */
  lemma BaseSpeedFollowsScore(w: World, ss: seq<Spawn>)
    requires ValidSpawns(ss) && Inv(w)
    ensures var r := AfterTimer(w, ss);
      InitialBaseSpeed <= w.enemyBaseSpeed <= r.enemyBaseSpeed &&
      (r.score == w.score + 1 ==>
        (r.enemyBaseSpeed == w.enemyBaseSpeed + 1 <==> r.score % 10 == 0))
  {
    TimerInv(w, ss);
  }

  /**
    Fresh enemies start well above the car, so the first tick after a reset
    respawns none of them, scores nothing and cannot end the round.
  */
  lemma FirstTickAfterReset(w: World, ss: seq<Spawn>, ss2: seq<Spawn>)
    requires ValidSpawns(ss) && ValidSpawns(ss2)
    ensures var w0 := AfterResetGame(w, ss);
      var r := AfterTimer(w0, ss2);
      r.score == 0 && !r.gameOver &&
      forall i :: 0 <= i < MaxEnemies ==>
        r.enemies[i] == w0.enemies[i].(y := w0.enemies[i].y - w0.enemies[i].speed)
  {
    var w0 := AfterResetGame(w, ss);
    CountFallenNone(w0.enemies);
    TimerScore(w0, ss2);
    TimerEnemies(w0, ss2);
    TimerGameOver(w0, ss2);
  }

  /**
    The GLUT program's globals. The enemies are the fixed array
    `enemies[maxEnemies]`, written in place; each method is proved to
    produce the World its function describes and to keep the invariant.
  */
  class RacingGame {
    var carPosX: int
    var score: int
    var gameOver: bool
    var isPaused: bool
    var enemyBaseSpeed: int
    const enemies: array<Enemy>

    function State(): World
      reads this, enemies
    {
      World(carPosX, score, gameOver, isPaused, enemyBaseSpeed, enemies[..])
    }

    ghost predicate Valid()
      reads this, enemies
    {
      enemies.Length == MaxEnemies && Inv(State())
    }

    /** The globals' initial values followed by `init()`'s `resetEnemies()`. */
    constructor (ss: seq<Spawn>)
      requires ValidSpawns(ss)
      ensures Valid() && fresh(enemies)
      ensures State() == World(StartX, 0, false, false, InitialBaseSpeed,
                               SpawnAll(InitialBaseSpeed, ss))
    {
      carPosX := StartX;
      score := 0;
      gameOver := false;
      isPaused := false;
      enemyBaseSpeed := InitialBaseSpeed;
      enemies := new Enemy[MaxEnemies](_ => Enemy(0, 0, 0));
      new;
      ResetEnemies(ss);
      ResetInv(State(), ss);
    }

    method ResetEnemies(ss: seq<Spawn>)
      requires enemies.Length == MaxEnemies && ValidSpawns(ss)
      modifies enemies
      ensures State() == old(State()).(enemies := SpawnAll(enemyBaseSpeed, ss))
    {
      for i := 0 to MaxEnemies
        invariant forall j :: 0 <= j < i ==> enemies[j] == Spawned(enemyBaseSpeed, ss[j])
      {
        enemies[i] := Enemy(RoadLeft + ss[i].lane * LaneWidth, WindowHeight + ss[i].offset,
                            enemyBaseSpeed + ss[i].jitter);
      }
      assert enemies[..] == SpawnAll(enemyBaseSpeed, ss);
    }

    method ResetGame(ss: seq<Spawn>)
      requires enemies.Length == MaxEnemies && ValidSpawns(ss)
      modifies this, enemies
      ensures State() == AfterResetGame(old(State()), ss)
      ensures Valid()
    {
      carPosX := StartX;
      score := 0;
      gameOver := false;
      isPaused := false;
      enemyBaseSpeed := InitialBaseSpeed;
      ResetEnemies(ss);
      ResetInv(old(State()), ss);
    }

    /** One pass of the body of the `timer` loop, on enemy i. */
    method TimerEnemy(i: nat, s: Spawn)
      requires i < enemies.Length && ValidSpawn(s)
      modifies this, enemies
      ensures State() == TimerStep(old(State()), i, s)
    {
      enemies[i] := enemies[i].(y := enemies[i].y - enemies[i].speed);
      if enemies[i].y < -CarHeight {
        enemies[i] := enemies[i].(y := WindowHeight + s.offset);
        enemies[i] := enemies[i].(x := RoadLeft + s.lane * LaneWidth);
        enemies[i] := enemies[i].(speed := enemyBaseSpeed + s.jitter);
        score := score + 1;
        if score % 10 == 0 {
          enemyBaseSpeed := enemyBaseSpeed + 1;
        }
      }
      if CheckCollision(carPosX, CarY, enemies[i].x, enemies[i].y) {
        gameOver := true;
      }
      ghost var next := TimerStep(old(State()), i, s);
      assert next.enemies == enemies[..] && next.score == score;
      assert next.enemyBaseSpeed == enemyBaseSpeed && next.gameOver == gameOver;
    }

    /** The state update of `timer` (the redisplay and re-arming are not modelled). */
    method Timer(ss: seq<Spawn>)
      requires Valid() && ValidSpawns(ss)
      modifies this, enemies
      ensures State() == AfterTimer(old(State()), ss)
      ensures Valid()
    {
      TimerInv(State(), ss);
      if !gameOver && !isPaused {
        ghost var start := State();
        for i := 0 to MaxEnemies
          invariant State() == TimerLoop(start, ss, i)
        {
          TimerEnemy(i, ss[i]);
        }
      }
    }

    method SpecialKeys(key: SpecialKey)
      requires Valid()
      modifies this
      ensures State() == AfterSpecialKey(old(State()), key)
      ensures Valid()
    {
      if !gameOver && !isPaused {
        if key == KeyLeft && carPosX > RoadLeft {
          carPosX := carPosX - CarSpeed;
        }
        if key == KeyRight && carPosX < RoadRight {
          carPosX := carPosX + CarSpeed;
        }
      }
      SpecialKeyInv(old(State()), key);
    }

    method Keyboard(key: char, ss: seq<Spawn>)
      requires Valid() && ValidSpawns(ss)
      modifies this, enemies
      ensures State() == AfterKeyboard(old(State()), key, ss)
      ensures Valid()
    {
      if key == 'r' || key == 'R' {
        ResetGame(ss);
      }
      if key == 'p' || key == 'P' {
        isPaused := !isPaused;
      }
      KeyboardInv(old(State()), key, ss);
    }
  }
}
