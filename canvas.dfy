/** The canvas component's game state and the update half of its per-frame callback,
    performed in place: the state lives in fields that the methods overwrite, the entity
    lists are updated element by element and re-filtered, and each method is proved to
    leave the state the frame functions of module Frame describe. */
module GameCanvas {
  import opened Types
  import opened Constants
  import opened Rules
  import opened Collisions
  import opened Frame

  class Game {
    var player: Player
    var bullets: seq<Bullet>
    var enemies: seq<Enemy>
    var particles: seq<Particle>
    var frameCount: int
    /** Date.now() when the current session started. */
    var startTime: int

    ghost function State(): World
      reads this
    {
      World(player, bullets, enemies, particles, frameCount)
    }

    ghost predicate Valid()
      reads this
    {
      Settled(State())
    }

    /** The state before any session has started. */
    constructor ()
      ensures Valid() && State() == Initial() && startTime == 0
    {
      player := InitialPlayer();
      bullets := [];
      enemies := [];
      particles := [];
      frameCount := 0;
      startTime := 0;
    }

    /** The reset effect: rebuilds the whole state for a new session, whatever it was. */
    method Reset(now: int)
      modifies this
      ensures Valid() && State() == Fresh() && startTime == now
    {
      player := Player(CANVAS_WIDTH / 2.0 - PLAYER_WIDTH / 2.0, CANVAS_HEIGHT - 100.0,
                       PLAYER_WIDTH, PLAYER_HEIGHT, "#3b82f6", 0.0, 0.0, 100, 0);
      bullets := [];
      enemies := [];
      particles := [];
      startTime := now;
      frameCount := 0;
    }

    /** The mouse and touch handlers: centre the craft under the pointer, clamped. */
    method PointerMove(pointerX: real)
      requires Valid()
      modifies this`player
      ensures Valid() && player == old(player).(x := PointerX(pointerX))
    {
      player := player.(x := Max(0.0, Min(CANVAS_WIDTH - PLAYER_WIDTH, pointerX - PLAYER_WIDTH / 2.0)));
    }

    method SteerPlayer(keys: Keys)
      modifies this`player
      ensures player == Steer(old(player), keys)
    {
      if Held(keys, "ArrowLeft") || Held(keys, "a") {
        player := player.(x := player.x - PLAYER_SPEED);
      }
      if Held(keys, "ArrowRight") || Held(keys, "d") {
        player := player.(x := player.x + PLAYER_SPEED);
      }
      player := player.(x := Max(0.0, Min(CANVAS_WIDTH - player.width, player.x)));
    }

    /** Pushes one bullet, centred on the craft, exactly on every FIRE_RATE-th frame. */
    method AutoFire()
      modifies this`bullets
      ensures bullets == old(bullets) + (if frameCount % FIRE_RATE == 0 then [ShotFrom(player)] else [])
      ensures bullets == Armed(old(bullets), player, frameCount)
    {
      if frameCount % FIRE_RATE == 0 {
        bullets := bullets + [Bullet(player.x + player.width / 2.0 - BULLET_WIDTH / 2.0, player.y,
                                     BULLET_WIDTH, BULLET_HEIGHT, "#60a5fa", 0.0, -BULLET_SPEED, 1, true)];
      }
    }

    /** spawnEnemy: draws the type roll (k) and the position roll (k + 1) and appends one
        enemy, touching no other. */
    method SpawnEnemy(rand: Rng, k: nat) returns (next: nat)
      modifies this`enemies
      ensures enemies == old(enemies) + [NewEnemy(rand(k), rand(k + 1))]
      ensures next == k + 2
    {
      var typeRoll := rand(k);
      var kind := Basic;
      var width, height, color, hp, speed := 40.0, 40.0, "#ef4444", 1, 3.0;
      if typeRoll > 0.8 {
        kind := Fast;
        width, height, color, hp, speed := 30.0, 30.0, "#eab308", 1, 6.0;
      } else if typeRoll > 0.95 {
        kind := Tank;
        width, height, color, hp, speed := 60.0, 60.0, "#a855f7", 5, 1.5;
      }
      var xRoll := rand(k + 1);
      enemies := enemies + [Enemy(xRoll * (CANVAS_WIDTH - width), -height, width, height, color,
                                  0.0, speed, hp, true, kind)];
      next := k + 2;
    }

    /** createExplosion: appends eight particles at (x, y), each drawing its horizontal
        velocity, vertical velocity and size from three consecutive random values. */
    method CreateExplosion(x: real, y: real, color: string, rand: Rng, k: nat) returns (next: nat)
      modifies this`particles
      ensures particles == old(particles) + Burst(x, y, color, rand, k)
      ensures next == k + 24
    {
      next := k;
      for i := 0 to 8
        invariant next == k + 3 * i
        invariant particles == old(particles) + Burst(x, y, color, rand, k)[..i]
      {
        var vx := (rand(next) - 0.5) * 10.0;
        var vy := (rand(next + 1) - 0.5) * 10.0;
        var size := rand(next + 2) * 4.0 + 2.0;
        particles := particles + [Particle(x, y, vx, vy, 1.0, color, size)];
        next := next + 3;
        assert Burst(x, y, color, rand, k)[..i + 1] == Burst(x, y, color, rand, k)[..i] + [Burst(x, y, color, rand, k)[i]];
      }
      assert Burst(x, y, color, rand, k)[..8] == Burst(x, y, color, rand, k);
    }

    method MoveBullets()
      modifies this`bullets
      ensures bullets == BulletsMoved(old(bullets))
    {
      for i := 0 to |bullets|
        invariant |bullets| == |old(bullets)|
        invariant forall n :: 0 <= n < i ==> bullets[n] == Flown(old(bullets)[n])
        invariant forall n :: i <= n < |bullets| ==> bullets[n] == old(bullets)[n]
      {
        var b := bullets[i];
        b := b.(y := b.y + b.vy);
        if b.y < -50.0 {
          b := b.(active := false);
        }
        bullets := bullets[i := b];
      }
    }

    method MoveEnemies()
      modifies this`enemies
      ensures enemies == EnemiesMoved(old(enemies))
    {
      for i := 0 to |enemies|
        invariant |enemies| == |old(enemies)|
        invariant forall n :: 0 <= n < i ==> enemies[n] == Fallen(old(enemies)[n])
        invariant forall n :: i <= n < |enemies| ==> enemies[n] == old(enemies)[n]
      {
        var e := enemies[i];
        e := e.(y := e.y + e.vy);
        if e.y > CANVAS_HEIGHT {
          e := e.(active := false);
        }
        enemies := enemies[i := e];
      }
    }

    method AgeParticles()
      modifies this`particles
      ensures particles == ParticlesAged(old(particles))
    {
      for i := 0 to |particles|
        invariant |particles| == |old(particles)|
        invariant forall n :: 0 <= n < i ==> particles[n] == Aged(old(particles)[n])
        invariant forall n :: i <= n < |particles| ==> particles[n] == old(particles)[n]
      {
        var p := particles[i];
        p := p.(x := p.x + p.vx);
        p := p.(y := p.y + p.vy);
        p := p.(life := p.life - 0.05);
        particles := particles[i := p];
      }
    }

    /** The body of the inner bullet-against-enemy loop for bullet i and enemy j. */
    method HitPair(i: nat, j: nat, rand: Rng, k: nat) returns (next: nat)
      requires i < |bullets| && j < |enemies|
      modifies this
      ensures (State(), next) == Hit(old(State()), i, j, rand, k)
      ensures startTime == old(startTime)
    {
      next := k;
      var b := bullets[i];
      var e := enemies[j];
      if e.active && BulletHits(b, e) {
        ghost var es := enemies;
        bullets := bullets[i := b.(active := false)];
        enemies := enemies[j := e.(hp := e.hp - 1)];
        next := CreateExplosion(b.x, b.y, IMPACT_COLOR, rand, next);
        if enemies[j].hp <= 0 {
          enemies := enemies[j := enemies[j].(active := false)];
          assert enemies == es[j := e.(hp := e.hp - 1).(active := false)];
          player := player.(score := player.score + Points(e.kind));
          next := CreateExplosion(e.x + e.width / 2.0, e.y + e.height / 2.0, e.color, rand, next);
        }
      }
    }

    /** The inner loop for bullet i: it is tested against every enemy in turn, and its
        own flag is not looked at again. */
    method SweepEnemies(i: nat, rand: Rng, k: nat) returns (next: nat)
      requires i < |bullets|
      modifies this
      ensures (State(), next) == SweepFrom(old(State()), i, 0, rand, k)
      ensures startTime == old(startTime)
    {
      next := k;
      for j := 0 to |enemies|
        invariant |bullets| == |old(bullets)| && |enemies| == |old(enemies)|
        invariant startTime == old(startTime)
        invariant SweepFrom(State(), i, j, rand, next) == SweepFrom(old(State()), i, 0, rand, k)
      {
        next := HitPair(i, j, rand, next);
      }
    }

    /** The outer bullet-against-enemy loop: bullets that are already spent are skipped. */
    method ResolveBulletHits(rand: Rng, k: nat) returns (next: nat)
      modifies this
      ensures (State(), next) == BulletsFrom(old(State()), 0, rand, k)
      ensures startTime == old(startTime)
    {
      next := k;
      for i := 0 to |bullets|
        invariant |bullets| == |old(bullets)|
        invariant startTime == old(startTime)
        invariant BulletsFrom(State(), i, rand, next) == BulletsFrom(old(State()), 0, rand, k)
      {
        if bullets[i].active {
          next := SweepEnemies(i, rand, next);
        }
      }
    }

    /** The body of the enemy-against-player loop for enemy j. */
    method ContactPair(j: nat, rand: Rng, k: nat) returns (next: nat)
      requires j < |enemies|
      modifies this
      ensures (State(), next) == Contact(old(State()), j, rand, k)
      ensures startTime == old(startTime)
    {
      next := k;
      var e := enemies[j];
      if e.active && Touches(player, e) {
        enemies := enemies[j := e.(active := false)];
        player := player.(hp := player.hp - 20);
        next := CreateExplosion(e.x + e.width / 2.0, e.y + e.height / 2.0, CONTACT_COLOR, rand, next);
      }
    }

    /** The enemy-against-player loop. */
    method ResolveContacts(rand: Rng, k: nat) returns (next: nat)
      modifies this
      ensures (State(), next) == ContactsFrom(old(State()), 0, rand, k)
      ensures startTime == old(startTime)
    {
      next := k;
      for j := 0 to |enemies|
        invariant |enemies| == |old(enemies)|
        invariant startTime == old(startTime)
        invariant ContactsFrom(State(), j, rand, next) == ContactsFrom(old(State()), 0, rand, k)
      {
        next := ContactPair(j, rand, next);
      }
    }

    /** Counts the frame, steers the craft, fires and spawns. */
    method ReadyFrame(keys: Keys, rand: Rng) returns (k: nat)
      modifies this`frameCount, this`player, this`bullets, this`enemies
      ensures frameCount == old(frameCount) + 1
      ensures player == Steer(old(player), keys)
      ensures bullets == Armed(old(bullets), player, frameCount)
      ensures enemies == Reinforced(old(enemies), frameCount, player.score, rand)
      ensures k == if SpawnDue(frameCount, player.score) then 2 else 0
    {
      frameCount := frameCount + 1;
      SteerPlayer(keys);
      AutoFire();
      k := 0;
      if frameCount % SpawnInterval(player.score) == 0 {
        k := SpawnEnemy(rand, k);
      }
    }

    /** Everything the frame does before the collisions. */
    method PrepareFrame(keys: Keys, rand: Rng) returns (k: nat)
      modifies this
      ensures (State(), k) == Prepare(old(State()), keys, rand)
      ensures startTime == old(startTime)
    {
      ghost var target := Prepare(State(), keys, rand);
      k := ReadyFrame(keys, rand);
      assert player == target.0.player && frameCount == target.0.frameCount && k == target.1;
      MoveBullets();
      assert bullets == target.0.bullets;
      MoveEnemies();
      assert enemies == target.0.enemies;
      AgeParticles();
      particles := Filter(particles, Alive);
    }

    /** The update half of one frame, then the game-over check. */
    method Step(keys: Keys, rand: Rng, now: int) returns (r: FrameResult)
      requires Valid()
      modifies this
      ensures Valid()
      ensures State() == Update(old(State()), keys, rand)
      ensures startTime == old(startTime)
      ensures r == Verdict(State(), startTime, now)
    {
      ghost var w0 := State();
      ghost var m := Prepare(w0, keys, rand);
      var k := PrepareFrame(keys, rand);
      ghost var s := BulletsFrom(m.0, 0, rand, m.1);
      k := ResolveBulletHits(rand, k);
      assert (State(), k) == s;
      ghost var c := ContactsFrom(s.0, 0, rand, s.1);
      k := ResolveContacts(rand, k);
      assert State() == c.0;
      bullets := Filter(bullets, BulletActive);
      enemies := Filter(enemies, EnemyActive);
      assert State() == Cleanup(c.0);
      UpdateSettled(w0, keys, rand);
      if player.hp <= 0 {
        var duration := (now - startTime) / 1000;
        return Ended(player.score, duration);
      }
      return NextFrame;
    }
  }
}
