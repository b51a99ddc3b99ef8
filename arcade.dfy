/**
 * The arcade mini-game (`MiniGameComponent`): a player ship, a descending enemy
 * formation, bullets and explosion particles, advanced one animation frame per
 * call. Coordinates are exact reals in the 800 x 600 logical canvas.
 *
 * The state lives in the class `MiniGame`; the value `World` is its snapshot,
 * and the functions over `World` (`FrameSpec` and its phases) specify what
 * each method does, so that the properties of a frame are stated as lemmas
 * about those functions.
 */
module Arcade {
  import SecretCode

  // ----- Playfield and sprite constants -----

  const CanvasWidth: real := 800.0
  const CanvasHeight: real := 600.0
  const PlayerStartX: int := 375
  const PlayerY: real := 500.0
  const PlayerWidth: real := 50.0
  const PlayerHeight: real := 30.0
  const PlayerStep: int := 5
  const EnemyWidth: real := 40.0
  const EnemyHeight: real := 30.0
  const Spacing: real := 60.0
  const FormationX: real := 100.0
  const FormationY: real := 50.0
  const DropStep: real := 20.0
  const FireCooldown: int := 300
  const BulletWidth: real := 4.0
  const BulletHeight: real := 10.0
  const PlayerBulletSpeed: real := -8.0
  const EnemyBulletSpeed: real := 3.0
  const ExplosionSize: nat := 15
  const PlayerHitColor: string := "#ff0000"
  const StartLives: int := 3
  /** Fraction of opacity a particle keeps per frame, and the level below which it is removed. */
  const ParticleFade: real := 0.95
  const ParticleCutoff: real := 0.01

  // ----- Game objects -----

  datatype Rect = Rect(x: real, y: real, width: real, height: real)

  datatype Enemy = Enemy(box: Rect, speed: real, color: string)

  /** A bullet's speed sign says who fired it: negative (upwards) is the player's, positive the enemies'. */
  datatype Bullet = Bullet(box: Rect, speed: real)

  /** A particle keeps only what the model tracks: its opacity and colour (its motion is trigonometric). */
  datatype Particle = Particle(opacity: real, color: string)

  /** `checkCollision`: the rectangles overlap strictly on all four sides. */
  predicate Collides(a: Rect, b: Rect)
  {
    a.x < b.x + b.width && a.x + a.width > b.x && a.y < b.y + b.height && a.y + a.height > b.y
  }

  /** Rectangles that only touch along an edge do not collide. */
  lemma TouchingIsNoCollision(a: Rect, b: Rect)
    requires a.x + a.width == b.x || b.x + b.width == a.x || a.y + a.height == b.y || b.y + b.height == a.y
    ensures !Collides(a, b) && !Collides(b, a)
  {
  }

  /** Rectangles of size at least 1 x 1 that overlap by one unit on both axes collide. */
  lemma OverlapByOneCollides(a: Rect, b: Rect)
    requires a.width >= 1.0 && a.height >= 1.0 && b.width >= 1.0 && b.height >= 1.0
    requires b.x == a.x + a.width - 1.0 && b.y == a.y + a.height - 1.0
    ensures Collides(a, b) && Collides(b, a)
  {
  }

  function PlayerBox(x: int): Rect
  {
    Rect(x as real, PlayerY, PlayerWidth, PlayerHeight)
  }

  function Held(keys: map<string, bool>, key: string): bool
  {
    key in keys && keys[key]
  }

  // ----- Formation -----

  /** Rows of the formation spawned at `level`: `4 + floor(level / 2)`. */
  function Rows(level: int): (n: nat)
    requires level >= 0
    ensures n == 4 + level / 2
  {
    4 + level / 2
  }

  function RowColor(row: nat): string
  {
    if row == 0 then "#ff0080" else if row == 1 then "#ff8800" else "#00ff88"
  }

  function EnemySpeed(level: int): real
  {
    0.5 + level as real * 0.1
  }

  function FormationEnemy(level: int, row: nat, col: nat): Enemy
  {
    Enemy(Rect(FormationX + col as real * Spacing, FormationY + row as real * Spacing, EnemyWidth, EnemyHeight),
          EnemySpeed(level), RowColor(row))
  }

  /** The enemies `createEnemies` appends, row by row, left to right. */
  function Formation(level: int): (f: seq<Enemy>)
    requires level >= 0
    ensures |f| == Rows(level) * 8
  {
    seq(Rows(level) * 8, k requires 0 <= k < Rows(level) * 8 => FormationEnemy(level, k / 8, k % 8))
  }

  /** Every formation enemy is a 40 x 30 box on the 60-unit grid, with the level's speed and its row's colour. */
  lemma FormationLayout(level: int, k: nat)
    requires level >= 0 && k < |Formation(level)|
    ensures |Formation(level)| == 8 * (4 + level / 2)
    ensures var e := Formation(level)[k];
            e.box == Rect(100.0 + (k % 8) as real * 60.0, 50.0 + (k / 8) as real * 60.0, 40.0, 30.0)
            && e.speed == 0.5 + 0.1 * level as real
            && e.color == (if k / 8 == 0 then "#ff0080" else if k / 8 == 1 then "#ff8800" else "#00ff88")
  {
  }

  /** Grid cells 60 apart never overlap boxes of 40 x 30. */
  lemma GridCellsApart(level: int, r1: nat, c1: nat, r2: nat, c2: nat)
    requires r1 != r2 || c1 != c2
    ensures !Collides(FormationEnemy(level, r1, c1).box, FormationEnemy(level, r2, c2).box)
  {
    if r1 < r2 {
      assert r1 as real + 1.0 <= r2 as real;
    } else if r2 < r1 {
      assert r2 as real + 1.0 <= r1 as real;
    } else if c1 < c2 {
      assert c1 as real + 1.0 <= c2 as real;
    } else {
      assert c2 as real + 1.0 <= c1 as real;
    }
  }

  /** No two enemies of a fresh formation overlap, and all of them start inside the playfield. */
  lemma FormationDisjoint(level: int, i: nat, j: nat)
    requires level >= 0 && i < |Formation(level)| && j < |Formation(level)| && i != j
    ensures !Collides(Formation(level)[i].box, Formation(level)[j].box)
    ensures 0.0 < Formation(level)[i].box.x < CanvasWidth - EnemyWidth
  {
    var f := Formation(level);
    assert i == (i / 8) * 8 + i % 8;
    assert j == (j / 8) * 8 + j % 8;
    GridCellsApart(level, i / 8, i % 8, j / 8, j % 8);
  }

  // ----- The snapshot of the game state -----

  /**
   * The whole state one frame reads and writes, including the armed flag and
   * window of the secret-code detector the game notifies.
   */
  datatype World = World(
    playerX: int,
    keys: map<string, bool>,
    lastShot: int,
    enemies: seq<Enemy>,
    bullets: seq<Bullet>,
    particles: seq<Particle>,
    score: int,
    lives: int,
    level: int,
    running: bool,
    over: bool,
    direction: int,
    codeActive: bool,
    codeWindow: seq<string>)

  /** `setGameActive(false)` on the detector: disarmed, window cleared. */
  function Disarm(w: World): (r: World)
    ensures !r.codeActive && r.codeWindow == []
    ensures r == w.(codeActive := r.codeActive, codeWindow := r.codeWindow)
  {
    w.(codeActive := false, codeWindow := [])
  }

  /** A loss: `gameOver`, not running, detector disarmed. */
  function Lose(w: World): (r: World)
    ensures r.over && !r.running && !r.codeActive && r.codeWindow == []
    ensures r == w.(over := r.over, running := r.running, codeActive := r.codeActive, codeWindow := r.codeWindow)
  {
    Disarm(w.(over := true, running := false))
  }

  // ----- Player -----

  /** The positions `updatePlayer` can reach from 375: multiples of 5 in `[0, 750]` (so always whole numbers). */
  predicate OnTrack(x: int)
  {
    0 <= x <= 750 && x % 5 == 0
  }

  /** `updatePlayer`: left first, then right, each only while inside the canvas. */
  function MovePlayer(x: int, left: bool, right: bool): (r: int)
    ensures !left && !right ==> r == x
    ensures x - PlayerStep <= r <= x + PlayerStep
    ensures left && !right && x > 0 ==> r == x - PlayerStep
  {
    var x1 := if left && x > 0 then x - PlayerStep else x;
    if right && (x1 as real) < CanvasWidth - PlayerWidth then x1 + PlayerStep else x1
  }

  /** `updatePlayer` keeps the ship on its track, so inside `[0, width - 50]`, moving by at most one step. */
  lemma MovePlayerStaysOnTrack(x: int, left: bool, right: bool)
    requires OnTrack(x)
    ensures OnTrack(MovePlayer(x, left, right))
    ensures x - PlayerStep <= MovePlayer(x, left, right) <= x + PlayerStep
  {
  }

  // ----- Enemies -----

  /** Each enemy moves by `direction * speed` horizontally. */
  function Advance(enemies: seq<Enemy>, direction: int): (r: seq<Enemy>)
    ensures |r| == |enemies|
  {
    seq(|enemies|, k requires 0 <= k < |enemies| =>
      enemies[k].(box := enemies[k].box.(x := enemies[k].box.x + direction as real * enemies[k].speed)))
  }

  /** Each enemy drops by 20. */
  function Lower(enemies: seq<Enemy>): (r: seq<Enemy>)
    ensures |r| == |enemies|
  {
    seq(|enemies|, k requires 0 <= k < |enemies| => enemies[k].(box := enemies[k].box.(y := enemies[k].box.y + DropStep)))
  }

  predicate AtEdge(e: Enemy)
  {
    e.box.x <= 0.0 || e.box.x >= CanvasWidth - e.box.width
  }

  predicate Reached(e: Enemy)
  {
    e.box.y + e.box.height >= PlayerY
  }

  /** `shouldDrop` after the first `|enemies|` iterations of the loop. */
  predicate AnyAtEdge(enemies: seq<Enemy>)
    decreases |enemies|
  {
    |enemies| > 0 && (AnyAtEdge(enemies[..|enemies| - 1]) || AtEdge(enemies[|enemies| - 1]))
  }

  /** Whether the loop has met an enemy at the player's height within its first `|enemies|` iterations. */
  predicate AnyReached(enemies: seq<Enemy>)
    decreases |enemies|
  {
    |enemies| > 0 && (AnyReached(enemies[..|enemies| - 1]) || Reached(enemies[|enemies| - 1]))
  }

  /** The loop's flag is set exactly when some enemy touches a side edge. */
  lemma {:induction false} AnyAtEdgeMeans(enemies: seq<Enemy>)
    ensures AnyAtEdge(enemies) <==> exists k :: 0 <= k < |enemies| && AtEdge(enemies[k])
    decreases |enemies|
  {
    if |enemies| > 0 {
      var init := enemies[..|enemies| - 1];
      AnyAtEdgeMeans(init);
      if AnyAtEdge(init) {
        var k :| 0 <= k < |init| && AtEdge(init[k]);
        assert AtEdge(enemies[k]);
      }
      if exists k :: 0 <= k < |enemies| && AtEdge(enemies[k]) {
        var k :| 0 <= k < |enemies| && AtEdge(enemies[k]);
        if k < |init| {
          assert AtEdge(init[k]);
        }
      }
    }
  }

  /** The loop's game-over is set exactly when some enemy's bottom edge is at or below the player's top. */
  lemma {:induction false} AnyReachedMeans(enemies: seq<Enemy>)
    ensures AnyReached(enemies) <==> exists k :: 0 <= k < |enemies| && Reached(enemies[k])
    decreases |enemies|
  {
    if |enemies| > 0 {
      var init := enemies[..|enemies| - 1];
      AnyReachedMeans(init);
      if AnyReached(init) {
        var k :| 0 <= k < |init| && Reached(init[k]);
        assert Reached(enemies[k]);
      }
      if exists k :: 0 <= k < |enemies| && Reached(enemies[k]) {
        var k :| 0 <= k < |enemies| && Reached(enemies[k]);
        if k < |init| {
          assert Reached(init[k]);
        }
      }
    }
  }

  /** `enemyShoot`: a 4 x 10 bullet from the enemy's bottom centre, falling at 3 per frame. */
  function EnemyShot(e: Enemy): (b: Bullet)
    ensures b.speed > 0.0
    ensures b.box.y == e.box.y + e.box.height
    ensures b.box.x + b.box.width / 2.0 == e.box.x + e.box.width / 2.0
  {
    Bullet(Rect(e.box.x + e.box.width / 2.0 - 2.0, e.box.y + e.box.height, BulletWidth, BulletHeight), EnemyBulletSpeed)
  }

  /**
   * `updateEnemies`: advance every enemy; flip the shared direction and drop
   * the whole formation when one touches an edge; lose when one reached the
   * player (judged on the heights before the drop); then, when `roll` is below
   * `0.01 * level`, the enemy at index `shooter` fires.
   */
  function EnemyPhase(w: World, roll: real, shooter: nat): (r: World)
    requires |w.enemies| > 0 ==> shooter < |w.enemies|
    ensures |r.enemies| == |w.enemies|
    ensures |w.bullets| <= |r.bullets| <= |w.bullets| + 1
    ensures r.playerX == w.playerX && r.score == w.score && r.lives == w.lives && r.level == w.level
  {
    var w1 := Marched(w);
    EnemyFire(if AnyReached(w.enemies) then Lose(w1) else w1, roll, shooter)
  }

  /** The formation after the march and, when it touched an edge, the drop. */
  function Marched(w: World): (r: World)
    ensures |r.enemies| == |w.enemies|
    ensures r == w.(enemies := r.enemies, direction := r.direction)
  {
    var moved := Advance(w.enemies, w.direction);
    if AnyAtEdge(moved) then w.(enemies := Lower(moved), direction := -w.direction)
    else w.(enemies := moved)
  }

  /** The enemy shot at the end of `updateEnemies`. */
  function EnemyFire(w: World, roll: real, shooter: nat): (r: World)
    requires |w.enemies| > 0 ==> shooter < |w.enemies|
    ensures r == w.(bullets := r.bullets)
  {
    if roll < 0.01 * w.level as real && |w.enemies| > 0
    then w.(bullets := w.bullets + [EnemyShot(w.enemies[shooter])])
    else w
  }

  /** The enemy pass leaves the ship, score, lives and level alone. */
  lemma EnemyPhaseKeeps(w: World, roll: real, shooter: nat)
    requires |w.enemies| > 0 ==> shooter < |w.enemies|
    ensures var r := EnemyPhase(w, roll, shooter);
            r.playerX == w.playerX && r.score == w.score && r.level == w.level && r.lives == w.lives
            && r.enemies == Marched(w).enemies && r.direction == Marched(w).direction
  {
  }

  /**
   * The drop rule: every enemy moves by `direction * speed`; if any of them
   * then touches an edge, the direction flips once and every enemy is exactly
   * 20 lower, otherwise no height changes.
   */
  lemma EnemyPhaseMovesFormation(w: World, roll: real, shooter: nat, k: nat)
    requires |w.enemies| > 0 ==> shooter < |w.enemies|
    requires k < |w.enemies|
    ensures var r := EnemyPhase(w, roll, shooter);
            var drop := exists j :: 0 <= j < |w.enemies| && AtEdge(Advance(w.enemies, w.direction)[j]);
            |r.enemies| == |w.enemies|
            && r.enemies[k].box.x == w.enemies[k].box.x + w.direction as real * w.enemies[k].speed
            && r.enemies[k].box.y == w.enemies[k].box.y + (if drop then 20.0 else 0.0)
            && r.direction == (if drop then -w.direction else w.direction)
            && r.enemies[k].speed == w.enemies[k].speed && r.enemies[k].color == w.enemies[k].color
  {
    EnemyPhaseKeeps(w, roll, shooter);
    AnyAtEdgeMeans(Advance(w.enemies, w.direction));
  }

  /** An enemy at the player's height ends the game and disarms the detector; otherwise those flags stay. */
  lemma EnemyPhaseLoss(w: World, roll: real, shooter: nat)
    requires |w.enemies| > 0 ==> shooter < |w.enemies|
    ensures var r := EnemyPhase(w, roll, shooter);
            var reached := exists j :: 0 <= j < |w.enemies| && w.enemies[j].box.y + w.enemies[j].box.height >= PlayerY;
            (reached ==> r.over && !r.running && !r.codeActive && r.codeWindow == [])
            && (!reached ==> (r.over == w.over && r.running == w.running
                              && r.codeActive == w.codeActive && r.codeWindow == w.codeWindow))
  {
    AnyReachedMeans(w.enemies);
  }

  /** At most one enemy fires per frame, and only when the roll is below `0.01 * level`. */
  lemma EnemyPhaseFire(w: World, roll: real, shooter: nat)
    requires |w.enemies| > 0 ==> shooter < |w.enemies|
    ensures var r := EnemyPhase(w, roll, shooter);
            if roll < 0.01 * w.level as real && |w.enemies| > 0
            then r.bullets == w.bullets + [EnemyShot(r.enemies[shooter])]
            else r.bullets == w.bullets
  {
  }

  // ----- Bullets -----

  function RemoveAt<T>(s: seq<T>, i: nat): (r: seq<T>)
    requires i < |s|
    ensures |r| == |s| - 1
    ensures r[..i] == s[..i]
  {
    s[..i] + s[i + 1..]
  }

  /** `splice(i, 1)` removes exactly the element at `i`, shifting the later ones down. */
  lemma RemoveAtShifts<T>(s: seq<T>, i: nat)
    requires i < |s|
    ensures forall k :: i <= k < |RemoveAt(s, i)| ==> RemoveAt(s, i)[k] == s[k + 1]
    ensures multiset(RemoveAt(s, i)) + multiset{s[i]} == multiset(s)
  {
    assert s == s[..i] + [s[i]] + s[i + 1..];
  }

  /** `createExplosion`, counted: fifteen particles of one colour at full opacity. */
  function Explosion(color: string): (ps: seq<Particle>)
    ensures |ps| == ExplosionSize
    ensures forall k :: 0 <= k < |ps| ==> ps[k] == Particle(1.0, color)
  {
    seq(ExplosionSize, _ => Particle(1.0, color))
  }

  /** The inner loop of `updateBullets`: the highest index of an enemy the box collides with, or -1. */
  function LastHit(box: Rect, enemies: seq<Enemy>): (j: int)
    ensures -1 <= j < |enemies|
    ensures j >= 0 ==> Collides(box, enemies[j].box)
    ensures forall k :: j < k < |enemies| ==> !Collides(box, enemies[k].box)
    decreases |enemies|
  {
    if enemies == [] then -1
    else if Collides(box, enemies[|enemies| - 1].box) then |enemies| - 1
    else LastHit(box, enemies[..|enemies| - 1])
  }

  /** The bullet one frame later. */
  function Fly(b: Bullet): Bullet
  {
    b.(box := b.box.(y := b.box.y + b.speed))
  }

  predicate OffScreen(b: Bullet)
  {
    b.box.y < 0.0 || b.box.y > CanvasHeight
  }

  predicate InBounds(b: Bullet)
  {
    0.0 <= b.box.y <= CanvasHeight
  }

  /**
   * What the loop of `updateBullets` reads and writes: the three lists, score
   * and lives, and whether some hit has already lost the game.
   */
  datatype Battle = Battle(enemies: seq<Enemy>, bullets: seq<Bullet>, particles: seq<Particle>,
                           score: int, lives: int, lost: bool)

  /**
   * The player-bullet branch of `updateBullets`, for the moved bullet at
   * index `i`: when it overlaps enemies, it and the highest-index one it
   * overlaps are removed, an explosion in that enemy's colour is added and
   * `10 * level` points are scored.
   */
  function ShotAtEnemies(g: Battle, level: int, i: nat): (r: Battle)
    requires i < |g.bullets|
    ensures r.lives == g.lives && r.lost == g.lost
    ensures r == g || (|r.enemies| == |g.enemies| - 1 && |r.bullets| == |g.bullets| - 1
                       && r.score == g.score + 10 * level && |r.particles| == |g.particles| + ExplosionSize)
  {
    var j := LastHit(g.bullets[i].box, g.enemies);
    if j < 0 then g
    else Battle(RemoveAt(g.enemies, j), RemoveAt(g.bullets, i), g.particles + Explosion(g.enemies[j].color),
                g.score + 10 * level, g.lives, g.lost)
  }

  /**
   * The enemy-bullet branch: when the moved bullet at index `i` overlaps the
   * ship, it is removed, a life is lost, a red explosion is added, and with
   * no lives left the battle is lost.
   */
  function ShotAtPlayer(g: Battle, playerX: int, i: nat): (r: Battle)
    requires i < |g.bullets|
    ensures r.enemies == g.enemies && r.score == g.score
    ensures r == g || (|r.bullets| == |g.bullets| - 1 && r.lives == g.lives - 1
                       && |r.particles| == |g.particles| + ExplosionSize)
  {
    if Collides(g.bullets[i].box, PlayerBox(playerX))
    then Battle(g.enemies, RemoveAt(g.bullets, i), g.particles + Explosion(PlayerHitColor),
                g.score, g.lives - 1, g.lost || g.lives - 1 <= 0)
    else g
  }

  /** One iteration of `updateBullets` for the bullet at index `i`: it flies, and off screen it is removed. */
  function BulletAt(g: Battle, level: int, playerX: int, i: nat): (r: Battle)
    requires i < |g.bullets|
    ensures i <= |r.bullets| && r.bullets[..i] == g.bullets[..i]
    ensures |r.bullets| <= |g.bullets| && |r.enemies| <= |g.enemies| && r.lives <= g.lives && (g.lost ==> r.lost)
  {
    var b := Fly(g.bullets[i]);
    if OffScreen(b) then g.(bullets := RemoveAt(g.bullets, i))
    else
      var g1 := g.(bullets := g.bullets[i := b]);
      assert g1.bullets[..i] == g.bullets[..i];
      if b.speed < 0.0 then ShotAtEnemies(g1, level, i)
      else if b.speed > 0.0 then ShotAtPlayer(g1, playerX, i)
      else g1
  }

  /** The reverse loop of `updateBullets` over indices `i - 1` down to 0. */
  function Sweep(g: Battle, level: int, playerX: int, i: nat): (r: Battle)
    requires i <= |g.bullets|
    ensures |r.bullets| <= |g.bullets| && |r.enemies| <= |g.enemies| && r.lives <= g.lives
    ensures g.lost ==> r.lost
    decreases i
  {
    if i == 0 then g else Sweep(BulletAt(g, level, playerX, i - 1), level, playerX, i - 1)
  }

  function BattleOf(w: World): Battle
  {
    Battle(w.enemies, w.bullets, w.particles, w.score, w.lives, false)
  }

  /** `updateBullets` on the whole state: a lost battle ends the game and disarms the detector. */
  function BulletPhase(w: World): (r: World)
    ensures r == w.(enemies := r.enemies, bullets := r.bullets, particles := r.particles, score := r.score,
                    lives := r.lives, over := r.over, running := r.running,
                    codeActive := r.codeActive, codeWindow := r.codeWindow)
  {
    var g := Sweep(BattleOf(w), w.level, w.playerX, |w.bullets|);
    var w1 := w.(enemies := g.enemies, bullets := g.bullets, particles := g.particles, score := g.score, lives := g.lives);
    if g.lost then Lose(w1) else w1
  }

  /** A player bullet that hits an enemy: exactly that bullet and the highest-index enemy it overlaps go, 15 particles and `10 * level` points arrive. */
  lemma PlayerBulletHit(g: Battle, level: int, playerX: int, i: nat)
    requires i < |g.bullets|
    requires var b := Fly(g.bullets[i]); !OffScreen(b) && b.speed < 0.0 && LastHit(b.box, g.enemies) >= 0
    ensures var b := Fly(g.bullets[i]);
            var j := LastHit(b.box, g.enemies);
            var r := BulletAt(g, level, playerX, i);
            Collides(b.box, g.enemies[j].box)
            && (forall k :: j < k < |g.enemies| ==> !Collides(b.box, g.enemies[k].box))
            && r.enemies == g.enemies[..j] + g.enemies[j + 1..]
            && r.bullets == g.bullets[..i] + g.bullets[i + 1..]
            && r.particles == g.particles + Explosion(g.enemies[j].color)
            && r.score == g.score + 10 * level
            && r.lives == g.lives && r.lost == g.lost
  {
    var b := Fly(g.bullets[i]);
    var bs := g.bullets[i := b];
    assert bs[..i] == g.bullets[..i] && bs[i + 1..] == g.bullets[i + 1..];
  }

  /** An enemy bullet that hits the ship: it goes, a life goes, 15 red particles arrive, and the battle is lost once no life is left. */
  lemma EnemyBulletHit(g: Battle, level: int, playerX: int, i: nat)
    requires i < |g.bullets|
    requires var b := Fly(g.bullets[i]); !OffScreen(b) && b.speed > 0.0 && Collides(b.box, PlayerBox(playerX))
    ensures var r := BulletAt(g, level, playerX, i);
            r.enemies == g.enemies
            && r.bullets == g.bullets[..i] + g.bullets[i + 1..]
            && r.particles == g.particles + Explosion(PlayerHitColor)
            && r.score == g.score && r.lives == g.lives - 1
            && (r.lost <==> g.lost || g.lives <= 1)
  {
    var b := Fly(g.bullets[i]);
    var bs := g.bullets[i := b];
    assert bs[..i] == g.bullets[..i] && bs[i + 1..] == g.bullets[i + 1..];
  }

  /** One loop iteration destroys at most one enemy, worth `10 * level`. */
  lemma BulletAtScore(g: Battle, level: int, playerX: int, i: nat)
    requires i < |g.bullets|
    ensures var r := BulletAt(g, level, playerX, i);
            var killed := |g.enemies| - |r.enemies|;
            (killed == 0 || killed == 1)
            && r.score == g.score + (if killed == 1 then 10 * level else 0)
  {
    var b := Fly(g.bullets[i]);
    if !OffScreen(b) && b.speed < 0.0 {
      var j := LastHit(b.box, g.enemies);
      if j >= 0 {
        assert |BulletAt(g, level, playerX, i).enemies| == |g.enemies| - 1;
      } else {
        assert BulletAt(g, level, playerX, i).enemies == g.enemies;
      }
    }
  }

  /** One loop iteration costs at most one life, never together with a kill; each kill or hit adds 15 particles. */
  lemma BulletAtLives(g: Battle, level: int, playerX: int, i: nat)
    requires i < |g.bullets|
    ensures var r := BulletAt(g, level, playerX, i);
            var killed := |g.enemies| - |r.enemies|;
            var hits := g.lives - r.lives;
            (hits == 0 || hits == 1) && (killed == 0 || killed == 1) && killed + hits <= 1
            && |r.particles| == |g.particles| + ExplosionSize * (killed + hits)
            && (r.lost <==> g.lost || (hits == 1 && r.lives <= 0))
  {
    var b := Fly(g.bullets[i]);
    var r := BulletAt(g, level, playerX, i);
    if OffScreen(b) {
      assert r.lives == g.lives && r.enemies == g.enemies && r.particles == g.particles;
    } else if b.speed < 0.0 {
      var j := LastHit(b.box, g.enemies);
      if j >= 0 {
        assert |r.enemies| == |g.enemies| - 1 && r.lives == g.lives;
      } else {
        assert r.enemies == g.enemies && r.lives == g.lives && r.particles == g.particles;
      }
    } else if b.speed > 0.0 && Collides(b.box, PlayerBox(playerX)) {
      assert r.enemies == g.enemies && r.lives == g.lives - 1;
    } else {
      assert r.enemies == g.enemies && r.lives == g.lives && r.particles == g.particles;
    }
  }

  /** From `g` to `r` no enemy was added and exactly `10 * level` points were scored per enemy destroyed. */
  predicate ScoredPerKill(g: Battle, r: Battle, level: int)
  {
    |r.enemies| <= |g.enemies| && r.score == g.score + 10 * level * (|g.enemies| - |r.enemies|) && r.score >= g.score
  }

  // Two arithmetic steps of `ScoreStep`, kept apart so that its proof stays small.
  lemma Distribute(p: int, a: int, b: int)
    ensures p * a + p * b == p * (a + b)
  {
  }

  lemma NonNegativeProduct(p: nat, k: nat)
    ensures p * k >= 0
  {
  }

  /** One iteration's points followed by the rest of the pass's points are `10 * level` per kill in all. */
  lemma ScoreStep(g: Battle, g1: Battle, r: Battle, level: int)
    requires level >= 1
    requires var k := |g.enemies| - |g1.enemies|;
             (k == 0 || k == 1) && g1.score == g.score + (if k == 1 then 10 * level else 0)
    requires ScoredPerKill(g1, r, level)
    ensures ScoredPerKill(g, r, level)
  {
    Distribute(10 * level, |g.enemies| - |g1.enemies|, |g1.enemies| - |r.enemies|);
    NonNegativeProduct(10 * level, |g.enemies| - |r.enemies|);
  }

  /**
   * A whole bullet pass adds exactly `10 * level` points per enemy destroyed,
   * so the score never decreases.
   */
  lemma {:induction false} SweepScore(g: Battle, level: int, playerX: int, i: nat)
    requires i <= |g.bullets| && level >= 1
    ensures ScoredPerKill(g, Sweep(g, level, playerX, i), level)
    decreases i
  {
    if i > 0 {
      var g1 := BulletAt(g, level, playerX, i - 1);
      BulletAtScore(g, level, playerX, i - 1);
      SweepScore(g1, level, playerX, i - 1);
      var r := Sweep(g1, level, playerX, i - 1);
      assert Sweep(g, level, playerX, i) == r;
      ScoreStep(g, g1, r, level);
    } else {
      assert Sweep(g, level, playerX, i) == g;
    }
  }

  /**
   * A whole bullet pass adds 15 particles per enemy destroyed and per life
   * lost, and the battle is lost exactly when it already was or some hit
   * took the lives to 0 or below.
   */
  lemma {:induction false} SweepLives(g: Battle, level: int, playerX: int, i: nat)
    requires i <= |g.bullets|
    ensures var r := Sweep(g, level, playerX, i);
            var killed := |g.enemies| - |r.enemies|;
            var hits := g.lives - r.lives;
            killed >= 0 && hits >= 0
            && |r.particles| == |g.particles| + ExplosionSize * (killed + hits)
            && (r.lost <==> g.lost || (hits > 0 && r.lives <= 0))
    decreases i
  {
    if i > 0 {
      var g1 := BulletAt(g, level, playerX, i - 1);
      BulletAtLives(g, level, playerX, i - 1);
      SweepLives(g1, level, playerX, i - 1);
      var r := Sweep(g1, level, playerX, i - 1);
      var k1 := |g.enemies| - |g1.enemies|;
      var k2 := |g1.enemies| - |r.enemies|;
      assert ExplosionSize * (k1 + (g.lives - g1.lives)) + ExplosionSize * (k2 + (g1.lives - r.lives))
          == ExplosionSize * ((k1 + k2) + (g.lives - r.lives));
    }
  }

  /**
   * `updateBullets` on the whole state: the score grows by `10 * level` per
   * enemy destroyed, and the game ends (not running, over, detector
   * disarmed) exactly when a hit took the lives to 0 or below; otherwise
   * those flags are untouched.
   */
  lemma BulletPhaseOutcome(w: World)
    requires w.level >= 1
    ensures var r := BulletPhase(w);
            var killed := |w.enemies| - |r.enemies|;
            var lost := w.lives - r.lives > 0 && r.lives <= 0;
            killed >= 0 && r.score == w.score + 10 * w.level * killed && r.score >= w.score
            && (lost ==> r.over && !r.running && !r.codeActive && r.codeWindow == [])
            && (!lost ==> (r.over == w.over && r.running == w.running
                           && r.codeActive == w.codeActive && r.codeWindow == w.codeWindow))
  {
    SweepScore(BattleOf(w), w.level, w.playerX, |w.bullets|);
    SweepLives(BattleOf(w), w.level, w.playerX, |w.bullets|);
  }

  lemma BulletAtInBounds(g: Battle, level: int, playerX: int, i: nat, k: nat)
    requires i < |g.bullets|
    requires forall m :: i < m < |g.bullets| ==> InBounds(g.bullets[m])
    requires i <= k < |BulletAt(g, level, playerX, i).bullets|
    ensures InBounds(BulletAt(g, level, playerX, i).bullets[k])
  {
    var r := BulletAt(g, level, playerX, i);
    if |r.bullets| < |g.bullets| {
      assert r.bullets[k] == g.bullets[k + 1];
    } else if k > i {
      assert r.bullets[k] == g.bullets[k];
    }
  }

  /** After a bullet pass every remaining bullet is inside the vertical bounds. */
  lemma {:induction false} SweepKeepsBulletsInBounds(g: Battle, level: int, playerX: int, i: nat)
    requires i <= |g.bullets|
    requires forall k :: i <= k < |g.bullets| ==> InBounds(g.bullets[k])
    ensures forall k :: 0 <= k < |Sweep(g, level, playerX, i).bullets| ==> InBounds(Sweep(g, level, playerX, i).bullets[k])
    decreases i
  {
    if i > 0 {
      var g1 := BulletAt(g, level, playerX, i - 1);
      forall k | i - 1 <= k < |g1.bullets| ensures InBounds(g1.bullets[k]) {
        BulletAtInBounds(g, level, playerX, i - 1, k);
      }
      SweepKeepsBulletsInBounds(g1, level, playerX, i - 1);
    }
  }

  // ----- Particles -----

  /** `updateParticles` on opacity only: every particle fades by 0.95 and is removed below 0.01; the rest keep their order. */
  function Decay(ps: seq<Particle>): (r: seq<Particle>)
    ensures |r| <= |ps|
    ensures forall k :: 0 <= k < |r| ==> r[k].opacity >= ParticleCutoff
    decreases |ps|
  {
    if ps == [] then []
    else
      var p := Faded(ps[0]);
      (if p.opacity < ParticleCutoff then [] else [p]) + Decay(ps[1..])
  }

  function Faded(p: Particle): Particle
  {
    p.(opacity := p.opacity * ParticleFade)
  }

  lemma DecayStep(ps: seq<Particle>, i: nat)
    requires i < |ps|
    ensures Decay(ps[i..]) == (if Faded(ps[i]).opacity < ParticleCutoff then [] else [Faded(ps[i])]) + Decay(ps[i + 1..])
  {
    assert ps[i..][1..] == ps[i + 1..];
  }

  /** Exactly the particles still visible after fading survive, each faded once. */
  lemma {:induction false} DecaySurvivors(ps: seq<Particle>)
    ensures forall p :: p in ps && Faded(p).opacity >= ParticleCutoff ==> Faded(p) in Decay(ps)
    ensures forall q :: q in Decay(ps) ==> exists p :: p in ps && q == Faded(p)
    decreases |ps|
  {
    if ps != [] {
      DecaySurvivors(ps[1..]);
      assert ps == [ps[0]] + ps[1..];
      forall q | q in Decay(ps) ensures exists p :: p in ps && q == Faded(p) {
        if q !in Decay(ps[1..]) {
          assert q == Faded(ps[0]);
        } else {
          var p :| p in ps[1..] && q == Faded(p);
          assert p in ps;
        }
      }
    }
  }

  // ----- Level progression and the whole frame -----

  /** The win check at the end of `gameLoop`: an empty formation means the next level and a fresh formation. */
  function LevelUp(w: World): (r: World)
    requires w.level >= 0
    ensures r == w.(level := r.level, enemies := r.enemies)
  {
    if |w.enemies| == 0 then w.(level := w.level + 1, enemies := Formation(w.level + 1)) else w
  }

  /** `updatePlayer` on the whole state. */
  function PlayerPhase(w: World): (r: World)
    ensures r == w.(playerX := r.playerX)
    ensures !Held(w.keys, "ArrowLeft") && !Held(w.keys, "ArrowRight") ==> r == w
    ensures OnTrack(w.playerX) ==> OnTrack(r.playerX)
  {
    w.(playerX := MovePlayer(w.playerX, Held(w.keys, "ArrowLeft"), Held(w.keys, "ArrowRight")))
  }

  /** `updateParticles` on the whole state. */
  function ParticlePhase(w: World): (r: World)
    ensures r == w.(particles := r.particles)
    ensures |r.particles| <= |w.particles|
  {
    w.(particles := Decay(w.particles))
  }

  /** One pass of `gameLoop` (its update part); nothing happens when the game is not running. */
  function FrameSpec(w: World, roll: real, shooter: nat): (r: World)
    requires w.level >= 1
    requires |w.enemies| > 0 ==> shooter < |w.enemies|
    ensures !w.running ==> r == w
    ensures w.running ==> |r.enemies| > 0 && (r.level == w.level || r.level == w.level + 1)
  {
    if !w.running then w
    else LevelUp(ParticlePhase(BulletPhase(EnemyPhase(PlayerPhase(w), roll, shooter))))
  }

  /**
   * Across a frame: the ship stays on its track, the score never decreases,
   * and the level rises by exactly one precisely when the bullet pass left no
   * enemy, in which case the formation is the next level's; a running frame
   * never leaves the formation empty.
   */
  lemma FrameProgress(w: World, roll: real, shooter: nat)
    requires w.level >= 1 && OnTrack(w.playerX)
    requires |w.enemies| > 0 ==> shooter < |w.enemies|
    ensures var r := FrameSpec(w, roll, shooter);
            OnTrack(r.playerX)
            && r.score >= w.score
            && (r.level == w.level || (r.level == w.level + 1 && r.enemies == Formation(w.level + 1)))
            && (w.running ==> |r.enemies| > 0)
            && (!w.running ==> r == w)
  {
    if w.running {
      MovePlayerStaysOnTrack(w.playerX, Held(w.keys, "ArrowLeft"), Held(w.keys, "ArrowRight"));
      var w1 := PlayerPhase(w);
      var w2 := EnemyPhase(w1, roll, shooter);
      EnemyPhaseKeeps(w1, roll, shooter);
      var w3 := BulletPhase(w2);
      BulletPhaseOutcome(w2);
      var w4 := ParticlePhase(w3);
      assert w4.playerX == w1.playerX && w4.score >= w.score && w4.level == w.level;
      assert FrameSpec(w, roll, shooter) == LevelUp(w4);
    }
  }

  /** The level only moves on when the frame's bullet pass destroyed the last enemy. */
  lemma FrameLevelUpExactly(w: World, roll: real, shooter: nat)
    requires w.level >= 1 && w.running
    requires |w.enemies| > 0 ==> shooter < |w.enemies|
    ensures var w3 := BulletPhase(EnemyPhase(PlayerPhase(w), roll, shooter));
            var r := FrameSpec(w, roll, shooter);
            (|w3.enemies| == 0 <==> r.level == w.level + 1)
            && (|w3.enemies| == 0 ==> |r.enemies| == 8 * (4 + (w.level + 1) / 2))
  {
    BulletPhaseOutcome(EnemyPhase(PlayerPhase(w), roll, shooter));
  }

  // ----- Shooting and key handling -----

  /** `shoot`'s bullet: 4 x 10 from the ship's top centre, rising at 8 per frame. */
  function PlayerShot(x: int): (b: Bullet)
    ensures b.speed < 0.0
    ensures b.box.y == PlayerY
    ensures b.box.x + b.box.width / 2.0 == PlayerBox(x).x + PlayerWidth / 2.0
  {
    Bullet(Rect(x as real + PlayerWidth / 2.0 - 2.0, PlayerY, BulletWidth, BulletHeight), PlayerBulletSpeed)
  }

  /** `shoot(now)`: fires only while running and at least 300 ms after the last shot. */
  function ShootSpec(w: World, now: int): (r: World)
    ensures r != w <==> w.running && now - w.lastShot >= FireCooldown
    ensures r != w ==> r == w.(bullets := w.bullets + [PlayerShot(w.playerX)], lastShot := now)
  {
    if !w.running || now - w.lastShot < FireCooldown then w
    else w.(bullets := w.bullets + [PlayerShot(w.playerX)], lastShot := now)
  }

  /** Two fire presses 100 ms apart give one bullet; 350 ms apart, two. */
  lemma FireCooldownScenario(w: World, now: int)
    requires w.running && now - w.lastShot >= FireCooldown
    ensures |ShootSpec(ShootSpec(w, now), now + 100).bullets| == |w.bullets| + 1
    ensures |ShootSpec(ShootSpec(w, now), now + 350).bullets| == |w.bullets| + 2
  {
  }

  /** Each fired bullet is a player bullet: it rises, so it is never mistaken for an enemy's. */
  lemma ShotsAreFriendly(w: World, now: int)
    ensures forall k :: |w.bullets| <= k < |ShootSpec(w, now).bullets| ==> ShootSpec(w, now).bullets[k].speed < 0.0
  {
  }

  /** `onKeyDown`: while running, mark the key held, and fire on space. */
  function KeyDownSpec(w: World, key: string, now: int): (r: World)
    ensures !w.running ==> r == w
    ensures w.running ==> Held(r.keys, key) && forall k :: k != key ==> Held(r.keys, k) == Held(w.keys, k)
    ensures key != " " ==> r.bullets == w.bullets
    ensures key == " " && w.running ==> r.bullets == ShootSpec(w, now).bullets
    ensures key != " " ==> r.lastShot == w.lastShot
    ensures r == w.(keys := r.keys, bullets := r.bullets, lastShot := r.lastShot)
  {
    if !w.running then w
    else
      var w1 := w.(keys := w.keys[key := true]);
      if key == " " then ShootSpec(w1, now) else w1
  }

  /** `onKeyUp`: while running, mark the key released. */
  function KeyUpSpec(w: World, key: string): (r: World)
    ensures !w.running ==> r == w
    ensures w.running ==> !Held(r.keys, key) && forall k :: k != key ==> Held(r.keys, k) == Held(w.keys, k)
    ensures r == w.(keys := r.keys)
  {
    if !w.running then w else w.(keys := w.keys[key := false])
  }

  // ----- Session transitions -----

  /** `startGame` before its first frame: a fresh session, detector armed, level-1 formation. */
  function StartSpec(w: World): (r: World)
    ensures r.running && !r.over && r.score == 0 && r.lives == 3 && r.level == 1
    ensures |r.enemies| == 32 && r.bullets == [] && r.particles == []
    ensures r.codeActive && r.codeWindow == w.codeWindow
    ensures r.playerX == w.playerX && r.keys == w.keys && r.direction == w.direction
  {
    w.(running := true, over := false, score := 0, lives := StartLives, level := 1,
       enemies := Formation(1), bullets := [], particles := [], codeActive := true)
  }

  /** `pauseGame` and `stopGame`: not running, detector disarmed; nothing else changes. */
  function PauseSpec(w: World): (r: World)
    ensures !r.running && !r.codeActive && r.codeWindow == []
    ensures r.over == w.over && r.score == w.score && r.lives == w.lives && r.level == w.level
    ensures r.enemies == w.enemies && r.bullets == w.bullets && r.particles == w.particles && r.playerX == w.playerX
  {
    Disarm(w.(running := false))
  }

  /** `resetGame`: stop, then a clean session with the ship back at 375. */
  function ResetSpec(w: World): (r: World)
    ensures r.score == 0 && r.lives == 3 && r.level == 1 && r.enemies == [] && r.bullets == []
         && r.particles == [] && r.playerX == 375 && !r.running && !r.over && !r.codeActive
  {
    PauseSpec(w).(over := false, score := 0, lives := StartLives, level := 1,
                  enemies := [], bullets := [], particles := [], playerX := PlayerStartX)
  }

  /** `resumeGame`: running again, one frame, and only then the detector is re-armed. */
  function ResumeSpec(w: World, roll: real, shooter: nat): (r: World)
    requires w.level >= 1
    requires |w.enemies| > 0 ==> shooter < |w.enemies|
    ensures r.codeActive && |r.enemies| > 0
    ensures r.level == w.level || r.level == w.level + 1
  {
    FrameSpec(w.(running := true), roll, shooter).(codeActive := true)
  }

  /** `toggleGame`: pause a running game, resume one that is not over, and otherwise do nothing. */
  function ToggleSpec(w: World, roll: real, shooter: nat): (r: World)
    requires w.level >= 1
    requires |w.enemies| > 0 ==> shooter < |w.enemies|
    ensures w.over && !w.running ==> r == w
    ensures w.running ==> r == PauseSpec(w)
    ensures !w.running && !w.over ==> r == ResumeSpec(w, roll, shooter)
  {
    if w.running then PauseSpec(w)
    else if !w.over then ResumeSpec(w, roll, shooter)
    else w
  }

  /** After a reset nothing of the previous session's score, lives, level or objects remains. */
  lemma ResetForgetsSession(w: World, v: World)
    requires w.keys == v.keys && w.lastShot == v.lastShot && w.direction == v.direction
    ensures ResetSpec(w) == ResetSpec(v)
  {
  }

  // ----- The component -----

  class MiniGame {
    var score: int
    var lives: int
    var level: int
    var gameRunning: bool
    var gameOver: bool
    var playerX: int
    var enemies: seq<Enemy>
    var bullets: seq<Bullet>
    var particles: seq<Particle>
    var keys: map<string, bool>
    var lastShot: int
    var enemyDirection: int
    /** The detector the game arms and disarms. */
    const codes: SecretCode.Detector

    ghost function Snap(): World
      reads this, codes
    {
      World(playerX, keys, lastShot, enemies, bullets, particles, score, lives, level,
            gameRunning, gameOver, enemyDirection, codes.gameActive, codes.currentSequence)
    }

    ghost predicate Valid()
      reads this, codes
    {
      level >= 1 && OnTrack(playerX) && (enemyDirection == 1 || enemyDirection == -1) && codes.Valid()
    }

    constructor (codes: SecretCode.Detector)
      requires codes.Valid()
      ensures Valid() && this.codes == codes
      ensures score == 0 && lives == 3 && level == 1 && !gameRunning && !gameOver
      ensures playerX == 375 && enemies == [] && bullets == [] && particles == []
      ensures keys == map[] && lastShot == 0 && enemyDirection == 1
    {
      score, lives, level := 0, StartLives, 1;
      gameRunning, gameOver := false, false;
      playerX := PlayerStartX;
      enemies, bullets, particles := [], [], [];
      keys, lastShot, enemyDirection := map[], 0, 1;
      this.codes := codes;
      new;
    }

    method OnKeyDown(key: string, now: int)
      requires Valid()
      modifies this
      ensures Valid()
      ensures Snap() == KeyDownSpec(old(Snap()), key, now)
    {
      if gameRunning {
        keys := keys[key := true];
        if key == " " {
          Shoot(now);
        }
      }
    }

    method OnKeyUp(key: string)
      requires Valid()
      modifies this
      ensures Valid()
      ensures Snap() == KeyUpSpec(old(Snap()), key)
    {
      if gameRunning {
        keys := keys[key := false];
      }
    }

    method Shoot(now: int)
      requires Valid()
      modifies this
      ensures Valid()
      ensures Snap() == ShootSpec(old(Snap()), now)
    {
      if !gameRunning || now - lastShot < FireCooldown {
        return;
      }
      bullets := bullets + [PlayerShot(playerX)];
      lastShot := now;
    }

    /** `startGame`: a fresh session, the detector armed, a level-1 formation, then the first frame at once. */
    method StartGame(roll: real, shooter: nat)
      requires Valid()
      requires shooter < |Formation(1)|
      modifies this, codes
      ensures Valid()
      ensures Snap() == FrameSpec(StartSpec(old(Snap())), roll, shooter)
    {
      Clear();
      gameRunning := true;
      codes.SetGameActive(true);
      assert [] + Formation(1) == Formation(1);
      CreateEnemies();
      Frame(roll, shooter);
    }

    /** The fields `startGame` and `resetGame` both reset. */
    method Clear()
      requires Valid()
      modifies this
      ensures Valid()
      ensures Snap() == old(Snap()).(over := false, score := 0, lives := StartLives, level := 1,
                                     enemies := [], bullets := [], particles := [])
    {
      gameOver := false;
      score, lives, level := 0, StartLives, 1;
      enemies, bullets, particles := [], [], [];
    }

    method ToggleGame(roll: real, shooter: nat)
      requires Valid()
      requires |enemies| > 0 ==> shooter < |enemies|
      modifies this, codes
      ensures Valid()
      ensures Snap() == ToggleSpec(old(Snap()), roll, shooter)
    {
      if gameRunning {
        PauseGame();
      } else if !gameOver {
        ResumeGame(roll, shooter);
      }
    }

    method PauseGame()
      requires Valid()
      modifies this, codes
      ensures Valid()
      ensures Snap() == PauseSpec(old(Snap()))
    {
      gameRunning := false;
      codes.SetGameActive(false);
    }

    /** `resumeGame`: the first frame runs before the detector is re-armed, so a frame that loses leaves it armed. */
    method ResumeGame(roll: real, shooter: nat)
      requires Valid()
      requires |enemies| > 0 ==> shooter < |enemies|
      modifies this, codes
      ensures Valid()
      ensures Snap() == ResumeSpec(old(Snap()), roll, shooter)
    {
      gameRunning := true;
      Frame(roll, shooter);
      codes.SetGameActive(true);
    }

    method StopGame()
      requires Valid()
      modifies this, codes
      ensures Valid()
      ensures Snap() == PauseSpec(old(Snap()))
    {
      gameRunning := false;
      codes.SetGameActive(false);
    }

    method ResetGame()
      requires Valid()
      modifies this, codes
      ensures Valid()
      ensures Snap() == ResetSpec(old(Snap()))
    {
      StopGame();
      Clear();
      playerX := PlayerStartX;
    }

    /** `createEnemies`: append the level's formation. */
    method CreateEnemies()
      requires Valid()
      modifies this
      ensures Valid()
      ensures Snap() == old(Snap()).(enemies := old(enemies) + Formation(level))
    {
      enemies := AppendFormation(enemies, level);
    }

    /** One animation frame of `gameLoop`, update part. */
    method Frame(roll: real, shooter: nat)
      requires Valid()
      requires |enemies| > 0 ==> shooter < |enemies|
      modifies this, codes
      ensures Valid()
      ensures Snap() == FrameSpec(old(Snap()), roll, shooter)
    {
      if !gameRunning {
        return;
      }
      UpdatePlayer();
      UpdateEnemies(roll, shooter);
      UpdateBullets();
      UpdateParticles();
      NextLevel();
    }

    /** The win check at the end of `gameLoop`. */
    method NextLevel()
      requires Valid()
      modifies this
      ensures Valid()
      ensures Snap() == LevelUp(old(Snap()))
    {
      if |enemies| == 0 {
        level := level + 1;
        CreateEnemies();
      }
    }

    method UpdatePlayer()
      requires Valid()
      modifies this
      ensures Valid()
      ensures Snap() == PlayerPhase(old(Snap()))
      ensures enemies == old(enemies)
    {
      MovePlayerStaysOnTrack(playerX, Held(keys, "ArrowLeft"), Held(keys, "ArrowRight"));
      if Held(keys, "ArrowLeft") && playerX > 0 {
        playerX := playerX - PlayerStep;
      }
      if Held(keys, "ArrowRight") && (playerX as real) < CanvasWidth - PlayerWidth {
        playerX := playerX + PlayerStep;
      }
    }

    /** `updateEnemies`. */
    method UpdateEnemies(roll: real, shooter: nat)
      requires Valid()
      requires |enemies| > 0 ==> shooter < |enemies|
      modifies this, codes
      ensures Valid()
      ensures Snap() == EnemyPhase(old(Snap()), roll, shooter)
    {
      MarchEnemies();
      if roll < 0.01 * level as real && |enemies| > 0 {
        EnemyShoot(enemies[shooter]);
      }
    }

    /** The march and drop loops of `updateEnemies`, and the loss when an enemy reached the player. */
    method MarchEnemies()
      requires Valid()
      modifies this, codes
      ensures Valid()
      ensures Snap() == var m := Marched(old(Snap())); if AnyReached(old(enemies)) then Lose(m) else m
      ensures |enemies| == |old(enemies)| && level == old(level)
    {
      var moved, shouldDrop, reached := AdvanceAll(codes, enemies, enemyDirection);
      if shouldDrop {
        moved := LowerAll(moved);
        enemyDirection := -enemyDirection;
      }
      enemies := moved;
      if reached {
        gameOver, gameRunning := true, false;
      }
    }

    method EnemyShoot(e: Enemy)
      modifies this
      ensures Snap() == old(Snap()).(bullets := old(bullets) + [EnemyShot(e)])
    {
      bullets := bullets + [EnemyShot(e)];
    }

    /** `updateBullets`: the loop runs on the lists, score and lives, and a lost battle ends the game. */
    method UpdateBullets()
      requires Valid()
      modifies this, codes
      ensures Valid()
      ensures Snap() == BulletPhase(old(Snap()))
    {
      var g := RunBattle(codes, Battle(enemies, bullets, particles, score, lives, false), level, playerX);
      StoreBattle(g);
    }

    /** The lists, score and lives after the bullet loop; a lost battle ends the game. */
    method StoreBattle(g: Battle)
      requires Valid()
      modifies this
      ensures Valid()
      ensures Snap() == old(Snap()).(enemies := g.enemies, bullets := g.bullets, particles := g.particles,
                                     score := g.score, lives := g.lives,
                                     over := old(gameOver) || g.lost, running := old(gameRunning) && !g.lost)
    {
      enemies, bullets, particles, score, lives := g.enemies, g.bullets, g.particles, g.score, g.lives;
      if g.lost {
        gameOver, gameRunning := true, false;
      }
    }

    /** `updateParticles`: the reverse loop fades each particle and splices out the faded ones. */
    method UpdateParticles()
      modifies this
      ensures Snap() == ParticlePhase(old(Snap()))
      ensures level == old(level) && playerX == old(playerX) && enemyDirection == old(enemyDirection)
    {
      var live := particles;
      var i := |live|;
      while i > 0
        invariant 0 <= i <= |particles|
        invariant live == particles[..i] + Decay(particles[i..])
        invariant unchanged(this)
        decreases i
      {
        i := i - 1;
        DecayStep(particles, i);
        assert live[..i] == particles[..i] && live[i] == particles[i] && live[i + 1..] == Decay(particles[i + 1..]);
        var p := live[i].(opacity := live[i].opacity * ParticleFade);
        if p.opacity < ParticleCutoff {
          live := live[..i] + live[i + 1..];
        } else {
          live := live[..i] + [p] + live[i + 1..];
        }
      }
      assert particles[0..] == particles;
      particles := live;
    }
  }

  /** The reverse loop of `updateBullets`. */
  method RunBattle(codes: SecretCode.Detector, start: Battle, level: int, playerX: int) returns (g: Battle)
    requires codes.Valid() && !start.lost
    modifies codes
    ensures codes.Valid()
    ensures g == Sweep(start, level, playerX, |start.bullets|)
    ensures g.lost ==> !codes.gameActive && codes.currentSequence == []
    ensures !g.lost ==> unchanged(codes)
  {
    g := start;
    var i := |g.bullets|;
    while i > 0
      invariant 0 <= i <= |g.bullets|
      invariant codes.Valid()
      invariant Sweep(start, level, playerX, |start.bullets|) == Sweep(g, level, playerX, i)
      invariant g.lost ==> !codes.gameActive && codes.currentSequence == []
      invariant !g.lost ==> unchanged(codes)
      decreases i
    {
      i := i - 1;
      g := BulletStep(codes, g, level, playerX, i);
    }
  }

  /** One iteration of `updateBullets`' loop; a hit that leaves no life disarms the detector. */
  method BulletStep(codes: SecretCode.Detector, g: Battle, level: int, playerX: int, i: nat) returns (r: Battle)
    requires codes.Valid() && i < |g.bullets|
    requires g.lost ==> !codes.gameActive && codes.currentSequence == []
    modifies codes
    ensures codes.Valid()
    ensures r == BulletAt(g, level, playerX, i)
    ensures r.lost ==> !codes.gameActive && codes.currentSequence == []
    ensures !r.lost ==> unchanged(codes)
  {
    var b := Fly(g.bullets[i]);
    if b.box.y < 0.0 || b.box.y > CanvasHeight {
      return g.(bullets := g.bullets[..i] + g.bullets[i + 1..]);
    }
    r := g.(bullets := g.bullets[i := b]);
    if b.speed < 0.0 {
      r := HitEnemies(r, level, i);
    }
    if b.speed > 0.0 {
      r := HitPlayer(codes, r, playerX, i);
    }
  }

  /** The enemy search of `updateBullets` and what a hit does. */
  method HitEnemies(g: Battle, level: int, i: nat) returns (r: Battle)
    requires i < |g.bullets|
    ensures r == ShotAtEnemies(g, level, i)
  {
    var j := FindLastHit(g.bullets[i].box, g.enemies);
    r := g;
    if j >= 0 {
      var ps := AddExplosion(g.particles, g.enemies[j].color);
      r := Battle(g.enemies[..j] + g.enemies[j + 1..], g.bullets[..i] + g.bullets[i + 1..], ps,
                  g.score + 10 * level, g.lives, g.lost);
    }
  }

  /** The ship check of `updateBullets`; the hit that leaves no life disarms the detector. */
  method HitPlayer(codes: SecretCode.Detector, g: Battle, playerX: int, i: nat) returns (r: Battle)
    requires codes.Valid() && i < |g.bullets|
    requires g.lost ==> !codes.gameActive && codes.currentSequence == []
    modifies codes
    ensures codes.Valid()
    ensures r == ShotAtPlayer(g, playerX, i)
    ensures r.lost ==> !codes.gameActive && codes.currentSequence == []
    ensures !r.lost ==> unchanged(codes)
  {
    r := g;
    if Collides(g.bullets[i].box, PlayerBox(playerX)) {
      var ps := AddExplosion(g.particles, PlayerHitColor);
      var lives := g.lives - 1;
      r := Battle(g.enemies, g.bullets[..i] + g.bullets[i + 1..], ps, g.score, lives, g.lost);
      if lives <= 0 {
        r := r.(lost := true);
        codes.SetGameActive(false);
      }
    }
  }

  /** `createEnemies`' two loops, row by row and column by column, pushing onto the list. */
  method AppendFormation(enemies: seq<Enemy>, level: int) returns (r: seq<Enemy>)
    requires level >= 0
    ensures r == enemies + Formation(level)
  {
    var rows := 4 + level / 2;
    r := enemies;
    var row := 0;
    while row < rows
      invariant 0 <= row <= rows
      invariant r == enemies + Formation(level)[..row * 8]
    {
      var col := 0;
      while col < 8
        invariant 0 <= col <= 8
        invariant r == enemies + Formation(level)[..row * 8 + col]
      {
        ghost var k := row * 8 + col;
        assert k / 8 == row && k % 8 == col;
        assert Formation(level)[..k + 1] == Formation(level)[..k] + [FormationEnemy(level, row, col)];
        r := r + [FormationEnemy(level, row, col)];
        col := col + 1;
      }
      row := row + 1;
    }
    assert Formation(level)[..rows * 8] == Formation(level);
  }

  /**
   * The first loop of `updateEnemies`: move every enemy, note whether one
   * touches an edge, and disarm the detector when one reached the player.
   */
  method AdvanceAll(codes: SecretCode.Detector, enemies: seq<Enemy>, direction: int)
    returns (moved: seq<Enemy>, shouldDrop: bool, reached: bool)
    requires codes.Valid()
    modifies codes
    ensures codes.Valid()
    ensures moved == Advance(enemies, direction)
    ensures shouldDrop == AnyAtEdge(moved)
    ensures reached == AnyReached(enemies)
    ensures reached ==> !codes.gameActive && codes.currentSequence == []
    ensures !reached ==> unchanged(codes)
  {
    ghost var target := Advance(enemies, direction);
    moved, shouldDrop, reached := enemies, false, false;
    var k := 0;
    while k < |moved|
      invariant 0 <= k <= |moved| == |enemies|
      invariant forall j :: 0 <= j < k ==> moved[j] == target[j]
      invariant forall j :: k <= j < |moved| ==> moved[j] == enemies[j]
      invariant shouldDrop == AnyAtEdge(target[..k])
      invariant reached == AnyReached(enemies[..k])
      invariant codes.Valid()
      invariant reached ==> !codes.gameActive && codes.currentSequence == []
      invariant !reached ==> unchanged(codes)
    {
      assert target[..k + 1][..k] == target[..k];
      assert enemies[..k + 1][..k] == enemies[..k];
      var e := moved[k];
      e := e.(box := e.box.(x := e.box.x + direction as real * e.speed));
      moved := moved[k := e];
      if e.box.x <= 0.0 || e.box.x >= CanvasWidth - e.box.width {
        shouldDrop := true;
      }
      if e.box.y + e.box.height >= PlayerY {
        reached := true;
        codes.SetGameActive(false);
      }
      k := k + 1;
    }
    assert target[..k] == target;
    assert enemies[..k] == enemies;
    assert moved == target;
  }

  /** The drop loop of `updateEnemies`. */
  method LowerAll(enemies: seq<Enemy>) returns (r: seq<Enemy>)
    ensures r == Lower(enemies)
  {
    r := enemies;
    var m := 0;
    while m < |r|
      invariant 0 <= m <= |r| == |enemies|
      invariant forall j :: 0 <= j < m ==> r[j] == Lower(enemies)[j]
      invariant forall j :: m <= j < |r| ==> r[j] == enemies[j]
    {
      var e := r[m];
      r := r[m := e.(box := e.box.(y := e.box.y + DropStep))];
      m := m + 1;
    }
  }

  /** `createExplosion`: fifteen particles pushed one at a time (their position, angle and speed are not modelled). */
  method AddExplosion(particles: seq<Particle>, color: string) returns (r: seq<Particle>)
    ensures r == particles + Explosion(color)
  {
    r := particles;
    var k := 0;
    while k < ExplosionSize
      invariant 0 <= k <= ExplosionSize
      invariant r == particles + Explosion(color)[..k]
    {
      assert Explosion(color)[..k + 1] == Explosion(color)[..k] + [Particle(1.0, color)];
      r := r + [Particle(1.0, color)];
      k := k + 1;
    }
    assert Explosion(color)[..ExplosionSize] == Explosion(color);
  }

  /** The search of `updateBullets`' inner loop, from the last enemy down, stopping at the first hit. */
  method FindLastHit(box: Rect, enemies: seq<Enemy>) returns (j: int)
    ensures j == LastHit(box, enemies)
  {
    j := |enemies| - 1;
    while j >= 0
      invariant -1 <= j < |enemies|
      invariant LastHit(box, enemies) == LastHit(box, enemies[..j + 1])
    {
      assert enemies[..j + 1][..j] == enemies[..j];
      if Collides(box, enemies[j].box) {
        return;
      }
      j := j - 1;
    }
  }
}
