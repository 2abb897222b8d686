/** The pure rules of one frame: rectangle overlap, player steering and clamping, the fire
    and spawn cadences, the enemy spawner, the motion of every entity, explosion bursts and
    the filters that drop spent entities. Each is a function of values; the class in
    module GameCanvas performs them in place and is proved equal to them. */
module Rules {
  import opened Types
  import opened Constants

  /** A value of Math.random(): a real in [0, 1). */
  type Unit = r: real | 0.0 <= r < 1.0 witness 0.0

  /** The values Math.random() returns during the update half of one frame, numbered from
      0 in the order the update asks for them. */
  type Rng = nat -> Unit

  /** Held keys, as the keyboard handlers record them: key name to "is down". */
  type Keys = map<string, bool>

  predicate Held(keys: Keys, key: string)
  {
    key in keys && keys[key]
  }

  function Max(a: real, b: real): real { if a >= b then a else b }

  function Min(a: real, b: real): real { if a <= b then a else b }

  // ---------------------------------------------------------------------------------
  // Geometry

  function Abs(x: real): real { if x < 0.0 then -x else x }

  /** Strict axis-aligned overlap of the rectangles (ax, aTop, aw, ah) and (bx, bTop, bw, bh):
      rectangles that only touch along an edge do not overlap. */
  predicate Overlaps(ax: real, aTop: real, aw: real, ah: real,
                     bx: real, bTop: real, bw: real, bh: real)
  {
    ax < bx + bw && ax + aw > bx && aTop < bTop + bh && aTop + ah > bTop
  }

  predicate BulletHits(b: Bullet, e: Enemy)
  {
    Overlaps(b.x, b.y, b.width, b.height, e.x, e.y, e.width, e.height)
  }

  predicate Touches(p: Player, e: Enemy)
  {
    Overlaps(p.x, p.y, p.width, p.height, e.x, e.y, e.width, e.height)
  }

  /** The four inequalities say that, on each axis, the centres of the two rectangles are
      closer than half the sum of their extents. */
  lemma OverlapsByCentres(ax: real, aTop: real, aw: real, ah: real,
                          bx: real, bTop: real, bw: real, bh: real)
    ensures Overlaps(ax, aTop, aw, ah, bx, bTop, bw, bh) <==>
      Abs((ax + aw / 2.0) - (bx + bw / 2.0)) < (aw + bw) / 2.0
      && Abs((aTop + ah / 2.0) - (bTop + bh / 2.0)) < (ah + bh) / 2.0
  {
  }

  /** A bullet hits an enemy exactly when their centres are that close on both axes. */
  lemma BulletHitsByCentres(b: Bullet, e: Enemy)
    ensures BulletHits(b, e) <==>
      Abs((b.x + b.width / 2.0) - (e.x + e.width / 2.0)) < (b.width + e.width) / 2.0
      && Abs((b.y + b.height / 2.0) - (e.y + e.height / 2.0)) < (b.height + e.height) / 2.0
  {
    OverlapsByCentres(b.x, b.y, b.width, b.height, e.x, e.y, e.width, e.height);
  }

  /** An enemy touches the player exactly when their centres are that close on both axes. */
  lemma TouchesByCentres(p: Player, e: Enemy)
    ensures Touches(p, e) <==>
      Abs((p.x + p.width / 2.0) - (e.x + e.width / 2.0)) < (p.width + e.width) / 2.0
      && Abs((p.y + p.height / 2.0) - (e.y + e.height / 2.0)) < (p.height + e.height) / 2.0
  {
    OverlapsByCentres(p.x, p.y, p.width, p.height, e.x, e.y, e.width, e.height);
  }

  /** The overlap test does not depend on which rectangle is named first, and rectangles
      that share only an edge do not overlap. */
  lemma OverlapsSymmetricAndStrict(ax: real, aTop: real, aw: real, ah: real,
                                   bx: real, bTop: real, bw: real, bh: real)
    ensures Overlaps(ax, aTop, aw, ah, bx, bTop, bw, bh) <==> Overlaps(bx, bTop, bw, bh, ax, aTop, aw, ah)
    ensures ax + aw == bx ==> !Overlaps(ax, aTop, aw, ah, bx, bTop, bw, bh)
    ensures aTop + ah == bTop ==> !Overlaps(ax, aTop, aw, ah, bx, bTop, bw, bh)
  {
  }

  // ---------------------------------------------------------------------------------
  // Player input

  /** Clamps a horizontal position so that a craft of the given width stays on the
      canvas: max(0, min(CANVAS_WIDTH - width, x)). */
  function Clamp(x: real, width: real): (r: real)
    ensures 0.0 <= r
    ensures width <= CANVAS_WIDTH ==> r <= CANVAS_WIDTH - width
    ensures 0.0 <= x <= CANVAS_WIDTH - width ==> r == x
    ensures width <= CANVAS_WIDTH && x < 0.0 ==> r == 0.0
    ensures width <= CANVAS_WIDTH && x > CANVAS_WIDTH - width ==> r == CANVAS_WIDTH - width
  {
    Max(0.0, Min(CANVAS_WIDTH - width, x))
  }

  /** The player position the mouse and touch handlers set from a pointer at logical
      horizontal coordinate pointerX: the craft is centred under the pointer, clamped. */
  function PointerX(pointerX: real): (r: real)
    ensures 0.0 <= r <= CANVAS_WIDTH - PLAYER_WIDTH
    ensures PLAYER_WIDTH / 2.0 <= pointerX <= CANVAS_WIDTH - PLAYER_WIDTH / 2.0
            ==> r + PLAYER_WIDTH / 2.0 == pointerX
    ensures pointerX < PLAYER_WIDTH / 2.0 ==> r == 0.0
    ensures pointerX > CANVAS_WIDTH - PLAYER_WIDTH / 2.0 ==> r == CANVAS_WIDTH - PLAYER_WIDTH
  {
    Clamp(pointerX - PLAYER_WIDTH / 2.0, PLAYER_WIDTH)
  }

  /** Keyboard movement: ArrowLeft or 'a' moves the craft PLAYER_SPEED to the left,
      ArrowRight or 'd' moves it PLAYER_SPEED to the right (both may apply), then the
      position is clamped to the canvas. */
  function Steer(p: Player, keys: Keys): (r: Player)
    ensures r == p.(x := r.x)
    ensures 0.0 <= r.x
    ensures p.width <= CANVAS_WIDTH ==> r.x <= CANVAS_WIDTH - p.width
    ensures 0.0 <= p.x <= CANVAS_WIDTH - p.width ==> p.x - PLAYER_SPEED <= r.x <= p.x + PLAYER_SPEED
    ensures (0.0 <= p.x <= CANVAS_WIDTH - p.width && !Held(keys, "ArrowLeft") && !Held(keys, "a")
             && !Held(keys, "ArrowRight") && !Held(keys, "d")) ==> r == p
    ensures ((Held(keys, "ArrowLeft") || Held(keys, "a")) && !Held(keys, "ArrowRight") && !Held(keys, "d")
             && 0.0 <= p.x <= CANVAS_WIDTH - p.width) ==> r.x == Max(0.0, p.x - PLAYER_SPEED)
    ensures ((Held(keys, "ArrowRight") || Held(keys, "d")) && !Held(keys, "ArrowLeft") && !Held(keys, "a")
             && 0.0 <= p.x <= CANVAS_WIDTH - p.width) ==> r.x == Min(CANVAS_WIDTH - p.width, p.x + PLAYER_SPEED)
    ensures ((Held(keys, "ArrowLeft") || Held(keys, "a")) && (Held(keys, "ArrowRight") || Held(keys, "d"))
             && 0.0 <= p.x <= CANVAS_WIDTH - p.width) ==> r == p
  {
    var x1 := if Held(keys, "ArrowLeft") || Held(keys, "a") then p.x - PLAYER_SPEED else p.x;
    var x2 := if Held(keys, "ArrowRight") || Held(keys, "d") then x1 + PLAYER_SPEED else x1;
    p.(x := Clamp(x2, p.width))
  }

  // ---------------------------------------------------------------------------------
  // Cadences

  /** A bullet is fired on every FIRE_RATE-th frame. */
  predicate FiresOn(frame: int)
  {
    frame % FIRE_RATE == 0
  }

  /** The bullet fired from the player's current position: centred on the craft, at its
      top edge, moving up. */
  function ShotFrom(p: Player): (b: Bullet)
    ensures b.x + b.width / 2.0 == p.x + p.width / 2.0 && b.y == p.y
    ensures b.width == BULLET_WIDTH && b.height == BULLET_HEIGHT
    ensures b.vx == 0.0 && b.vy == -BULLET_SPEED && b.vy < 0.0 && b.active
  {
    Bullet(p.x + p.width / 2.0 - BULLET_WIDTH / 2.0, p.y, BULLET_WIDTH, BULLET_HEIGHT,
           "#60a5fa", 0.0, -BULLET_SPEED, 1, true)
  }

  /** Frames between enemy spawns at the given score: ENEMY_SPAWN_RATE, less 5 for every
      full 500 points, never below 20. */
  function SpawnInterval(score: int): (r: int)
    ensures 20 <= r
    ensures score >= 0 ==> r <= ENEMY_SPAWN_RATE
    ensures 0 <= score < 500 ==> r == 60
    ensures 500 <= score < 1000 ==> r == 55
    ensures score >= 4000 ==> r == 20
  {
    var slowest := ENEMY_SPAWN_RATE - (score / 500) * 5;
    if slowest >= 20 then slowest else 20
  }

  predicate SpawnDue(frame: int, score: int)
  {
    frame % SpawnInterval(score) == 0
  }

  /** The difficulty ramp never slows down as the score grows. */
  lemma SpawnIntervalMonotone(s1: int, s2: int)
    requires s1 <= s2
    ensures SpawnInterval(s2) <= SpawnInterval(s1)
  {
    var q1, q2 := s1 / 500, s2 / 500;
    assert q1 * 500 <= s1 && s2 < (q2 + 1) * 500;
    assert q1 < q2 + 1;
  }

  /** Every further 500 points tightens the interval by exactly 5 frames until it reaches
      the floor of 20. */
  lemma SpawnIntervalRamp(score: int)
    requires score >= 0
    ensures SpawnInterval(score + 500) == if SpawnInterval(score) - 5 >= 20 then SpawnInterval(score) - 5 else 20
  {
    assert (score + 500) / 500 == score / 500 + 1;
  }

  // ---------------------------------------------------------------------------------
  // Enemies

  /** Size, colour, hit points and speed that spawnEnemy assigns to each type. */
  datatype Profile = Profile(width: real, height: real, color: string, hp: int, speed: real)

  function ProfileOf(kind: Kind): Profile
  {
    match kind
    case Basic => Profile(40.0, 40.0, "#ef4444", 1, 3.0)
    case Fast => Profile(30.0, 30.0, "#eab308", 1, 6.0)
    case Tank => Profile(60.0, 60.0, "#a855f7", 5, 1.5)
  }

  /** Score awarded for destroying an enemy of the given type. */
  function Points(kind: Kind): (r: int)
    ensures r > 0
  {
    if kind == Tank then 50 else if kind == Fast then 20 else 10
  }

  /** Type chosen by spawnEnemy for a roll of Math.random(). The test for 'fast' comes
      before the test for 'tank', and every roll above 0.95 is also above 0.8, so the
      'tank' branch is never taken. */
  function KindFor(typeRoll: real): (k: Kind)
    ensures k == Fast <==> typeRoll > 0.8
    ensures k == Basic <==> typeRoll <= 0.8
    ensures k != Tank
  {
    if typeRoll > 0.8 then Fast
    else if typeRoll > 0.95 then Tank
    else Basic
  }

  /** An enemy whose size, colour, velocity and hit-point ceiling are those of its type. */
  predicate Shaped(e: Enemy)
  {
    var p := ProfileOf(e.kind);
    e.width == p.width && e.height == p.height && e.color == p.color
    && e.vx == 0.0 && e.vy == p.speed && e.hp <= p.hp
  }

  /** The enemy spawnEnemy appends for the rolls typeRoll (its type) and xRoll (its
      horizontal position). */
  function NewEnemy(typeRoll: Unit, xRoll: Unit): (e: Enemy)
    ensures e.kind == (if typeRoll > 0.8 then Fast else Basic)
    ensures e.kind == Fast ==> e.width == 30.0 && e.height == 30.0 && e.hp == 1 && e.vy == 6.0
    ensures e.kind == Basic ==> e.width == 40.0 && e.height == 40.0 && e.hp == 1 && e.vy == 3.0
    ensures Shaped(e) && e.active && e.hp >= 1
    ensures 0.0 <= e.x < CANVAS_WIDTH - e.width && e.y == -e.height
  {
    var kind := KindFor(typeRoll);
    var p := ProfileOf(kind);
    Enemy(xRoll * (CANVAS_WIDTH - p.width), -p.height, p.width, p.height, p.color,
          0.0, p.speed, p.hp, true, kind)
  }

  // ---------------------------------------------------------------------------------
  // Motion

  /** A bullet after one frame of flight; it is spent once it is more than 50 units
      above the canvas. */
  function Flown(b: Bullet): (r: Bullet)
    ensures r == b.(y := r.y, active := r.active) && r.y - b.y == b.vy
    ensures r.active <==> b.active && r.y >= -50.0
  {
    var y := b.y + b.vy;
    b.(y := y, active := if y < -50.0 then false else b.active)
  }

  /** An enemy after one frame of descent; it is spent once below the canvas. */
  function Fallen(e: Enemy): (r: Enemy)
    ensures r == e.(y := r.y, active := r.active) && r.y - e.y == e.vy
    ensures r.active <==> e.active && r.y <= CANVAS_HEIGHT
  {
    var y := e.y + e.vy;
    e.(y := y, active := if y > CANVAS_HEIGHT then false else e.active)
  }

  /** A particle after one frame: it drifts by its velocity and loses 0.05 life. */
  function Aged(p: Particle): (r: Particle)
    ensures r == p.(x := r.x, y := r.y, life := r.life)
    ensures r.x - p.x == p.vx && r.y - p.y == p.vy && r.life < p.life && p.life - r.life == 0.05
  {
    p.(x := p.x + p.vx, y := p.y + p.vy, life := p.life - 0.05)
  }

  function BulletsMoved(bs: seq<Bullet>): (r: seq<Bullet>)
    ensures |r| == |bs|
    ensures forall i :: 0 <= i < |bs| ==>
      r[i] == bs[i].(y := bs[i].y + bs[i].vy, active := r[i].active)
      && (r[i].active <==> bs[i].active && r[i].y >= -50.0)
  {
    seq(|bs|, i requires 0 <= i < |bs| => Flown(bs[i]))
  }

  function EnemiesMoved(es: seq<Enemy>): (r: seq<Enemy>)
    ensures |r| == |es|
    ensures forall i :: 0 <= i < |es| ==>
      r[i] == es[i].(y := es[i].y + es[i].vy, active := r[i].active)
      && (r[i].active <==> es[i].active && r[i].y <= CANVAS_HEIGHT)
  {
    seq(|es|, i requires 0 <= i < |es| => Fallen(es[i]))
  }

  function ParticlesAged(ps: seq<Particle>): (r: seq<Particle>)
    ensures |r| == |ps|
    ensures forall i :: 0 <= i < |ps| ==>
      r[i] == ps[i].(x := ps[i].x + ps[i].vx, y := ps[i].y + ps[i].vy, life := ps[i].life - 0.05)
  {
    seq(|ps|, i requires 0 <= i < |ps| => Aged(ps[i]))
  }

  // ---------------------------------------------------------------------------------
  // Explosions

  /** One particle of a burst, built from three consecutive random values (horizontal
      velocity, vertical velocity, size) starting at draw k. */
  function Spark(x: real, y: real, color: string, rand: Rng, k: nat): Particle
  {
    Particle(x, y, (rand(k) - 0.5) * 10.0, (rand(k + 1) - 0.5) * 10.0, 1.0, color,
             rand(k + 2) * 4.0 + 2.0)
  }

  /** The eight particles createExplosion appends, using draws k .. k + 23. */
  function Burst(x: real, y: real, color: string, rand: Rng, k: nat): (r: seq<Particle>)
    ensures |r| == 8
    ensures forall i :: 0 <= i < 8 ==>
      r[i].x == x && r[i].y == y && r[i].life == 1.0 && r[i].color == color
      && -5.0 <= r[i].vx < 5.0 && -5.0 <= r[i].vy < 5.0 && 2.0 <= r[i].size < 6.0
  {
    seq(8, i requires 0 <= i < 8 => Spark(x, y, color, rand, k + 3 * i))
  }

  // ---------------------------------------------------------------------------------
  // Cleanup

  predicate BulletActive(b: Bullet) { b.active }

  predicate EnemyActive(e: Enemy) { e.active }

  predicate Alive(p: Particle) { p.life > 0.0 }

  /** Array.prototype.filter: the elements of s that satisfy keep, in their order, each
      as often as it occurs in s. */
  function Filter<T(==)>(s: seq<T>, keep: T -> bool): (r: seq<T>)
    ensures |r| <= |s|
    ensures forall x :: x in r ==> keep(x) && x in s
    ensures forall i :: 0 <= i < |s| && keep(s[i]) ==> s[i] in r
    ensures (forall i :: 0 <= i < |s| ==> keep(s[i])) ==> r == s
    decreases |s|
  {
    if |s| == 0 then []
    else if keep(s[0]) then [s[0]] + Filter(s[1..], keep)
    else Filter(s[1..], keep)
  }

  /** Every kept value occurs in the result exactly as often as in the input. */
  lemma {:induction false} FilterKeepsCount<T(!new)>(s: seq<T>, keep: T -> bool)
    ensures forall x :: keep(x) ==> multiset(Filter(s, keep))[x] == multiset(s)[x]
    decreases |s|
  {
    if |s| > 0 {
      FilterKeepsCount(s[1..], keep);
      assert s == [s[0]] + s[1..];
    }
  }

  /** Filtering a concatenation filters each part and keeps them in order; with
      Filter([x]) being [x] or [], this fixes the order of the result. */
  lemma {:induction false} FilterAppend<T>(a: seq<T>, b: seq<T>, keep: T -> bool)
    ensures Filter(a + b, keep) == Filter(a, keep) + Filter(b, keep)
    decreases |a|
  {
    if |a| == 0 {
      assert a + b == b;
    } else {
      assert (a + b)[1..] == a[1..] + b;
      FilterAppend(a[1..], b, keep);
    }
  }

  // ---------------------------------------------------------------------------------
  // State

  /** The state the canvas component keeps between frames: the player, the three entity
      lists and the frame counter. */
  datatype World = World(player: Player, bullets: seq<Bullet>, enemies: seq<Enemy>,
                         particles: seq<Particle>, frameCount: int)
}
