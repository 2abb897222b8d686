/** One frame of the simulation as a function of the state: the update half of the
    component's render callback, phase by phase, and the game-over verdict that decides
    whether another frame is requested. */
module Frame {
  import opened Types
  import opened Constants
  import opened Rules
  import opened Ledger
  import opened Collisions

  /** What a frame hands back to its driver: either request the next frame, or report
      the final score and the whole seconds survived to onGameOver and stop. */
  datatype FrameResult = NextFrame | Ended(score: int, duration: int)

  /** The player the component holds before its first session. */
  function InitialPlayer(): Player
  {
    Player(CANVAS_WIDTH / 2.0, CANVAS_HEIGHT - 100.0, PLAYER_WIDTH, PLAYER_HEIGHT,
           PLAYER_COLOR, 0.0, 0.0, 100, 0)
  }

  /** The state the component holds before its first session. */
  function Initial(): (w: World)
    ensures Settled(w) && w.player.x == 400.0 && w.player.hp == 100 && w.player.score == 0
  {
    World(InitialPlayer(), [], [], [], 0)
  }

  /** The state the reset effect rebuilds whenever a session starts: the craft centred
      near the bottom with full health and no score, no entities, frame counter 0. */
  function Fresh(): (w: World)
    ensures Settled(w)
    ensures w.player.x == 380.0 && w.player.y == 500.0 && w.player.hp == 100 && w.player.score == 0
    ensures w.bullets == [] && w.enemies == [] && w.particles == [] && w.frameCount == 0
  {
    World(Player(CANVAS_WIDTH / 2.0 - PLAYER_WIDTH / 2.0, CANVAS_HEIGHT - 100.0,
                 PLAYER_WIDTH, PLAYER_HEIGHT, PLAYER_COLOR, 0.0, 0.0, 100, 0),
          [], [], [], 0)
  }

  /** The bullet list after the auto-fire step of the given frame. */
  function Armed(bullets: seq<Bullet>, player: Player, frame: int): (r: seq<Bullet>)
  {
    if FiresOn(frame) then bullets + [ShotFrom(player)] else bullets
  }

  /** The enemy list after the spawn step of the given frame, at the given score. */
  function Reinforced(enemies: seq<Enemy>, frame: int, score: int, rand: Rng): (r: seq<Enemy>)
  {
    if SpawnDue(frame, score) then enemies + [NewEnemy(rand(0), rand(1))] else enemies
  }

  /** Everything a frame does before the collisions: count the frame, steer, fire, spawn,
      move bullets and enemies, age and prune particles. The second component counts the
      random draws used (two when an enemy spawned). */
  function Prepare(w: World, keys: Keys, rand: Rng): (r: (World, nat))
  {
    var frame := w.frameCount + 1;
    var player := Steer(w.player, keys);
    (World(player, BulletsMoved(Armed(w.bullets, player, frame)),
           EnemiesMoved(Reinforced(w.enemies, frame, player.score, rand)),
           Filter(ParticlesAged(w.particles), Alive), frame),
     if SpawnDue(frame, player.score) then 2 else 0)
  }

  /** Drops spent bullets and destroyed or departed enemies. */
  function Cleanup(w: World): World
  {
    w.(bullets := Filter(w.bullets, BulletActive), enemies := Filter(w.enemies, EnemyActive))
  }

  /** The state after the update half of one frame. */
  function Update(w: World, keys: Keys, rand: Rng): World
  {
    var m := Prepare(w, keys, rand);
    var s := BulletsFrom(m.0, 0, rand, m.1);
    var c := ContactsFrom(s.0, 0, rand, s.1);
    Cleanup(c.0)
  }

  /** The game-over check at the end of the update: with no hit points left the session
      ends with the score and the elapsed time in whole seconds, rounded down. */
  function Verdict(w: World, startTime: int, now: int): (r: FrameResult)
    ensures r.Ended? <==> w.player.hp <= 0
    ensures r.Ended? ==> r.score == w.player.score
    ensures r.Ended? ==> r.duration * 1000 <= now - startTime < r.duration * 1000 + 1000
  {
    if w.player.hp <= 0 then Ended(w.player.score, (now - startTime) / 1000) else NextFrame
  }

  /** What holds between two frames: the craft has its fixed size and row and lies on the
      canvas, the score is not negative, only live bullets (of the fired shape, at most 50
      units above the canvas), live enemies (with hit points left and the shape of their
      type, not below the canvas) and live particles remain. */
  ghost predicate Settled(w: World)
  {
    && w.player.width == PLAYER_WIDTH && w.player.height == PLAYER_HEIGHT
    && w.player.y == CANVAS_HEIGHT - 100.0
    && 0.0 <= w.player.x <= CANVAS_WIDTH - PLAYER_WIDTH
    && w.player.score >= 0
    && w.frameCount >= 0
    && (forall b :: b in w.bullets ==> b.active && FiredShape(b) && b.y >= -50.0)
    && (forall e :: e in w.enemies ==> e.active && e.hp >= 1 && Shaped(e) && e.y <= CANVAS_HEIGHT)
    && (forall p :: p in w.particles ==> 0.0 < p.life <= 1.0)
  }

  ghost predicate FiredShape(b: Bullet)
  {
    b.width == BULLET_WIDTH && b.height == BULLET_HEIGHT && b.vx == 0.0 && b.vy == -BULLET_SPEED
  }

  lemma MovedBulletsKeepShape(bs: seq<Bullet>)
    requires forall b :: b in bs ==> FiredShape(b)
    ensures forall b :: b in BulletsMoved(bs) ==> FiredShape(b)
  {
    var r := BulletsMoved(bs);
    forall b | b in r ensures FiredShape(b) {
      var i :| 0 <= i < |r| && r[i] == b;
      assert bs[i] in bs;
    }
  }

  lemma MovedEnemiesKeepShape(es: seq<Enemy>)
    requires forall e :: e in es ==> Shaped(e) && e.hp >= 1
    ensures forall j :: 0 <= j < |EnemiesMoved(es)| ==>
      Shaped(EnemiesMoved(es)[j]) && EnemiesMoved(es)[j].hp >= 1
  {
    var r := EnemiesMoved(es);
    forall j | 0 <= j < |r| ensures Shaped(r[j]) && r[j].hp >= 1 {
      assert es[j] in es;
    }
  }

  lemma AgedParticlesLive(ps: seq<Particle>)
    requires forall p :: p in ps ==> 0.0 < p.life <= 1.0
    ensures forall p :: p in Filter(ParticlesAged(ps), Alive) ==> 0.0 < p.life <= 1.0
  {
    var aged := ParticlesAged(ps);
    forall p | p in Filter(aged, Alive) ensures 0.0 < p.life <= 1.0 {
      var i :| 0 <= i < |aged| && aged[i] == p;
      assert ps[i] in ps;
    }
  }

  /** Auto-fire keeps every bullet already in flight, in order, and adds the shot from
      the player's position exactly on multiples of FIRE_RATE. */
  lemma ArmedFiresOnCadence(bullets: seq<Bullet>, player: Player, frame: int)
    ensures var r := Armed(bullets, player, frame);
      && |r| == |bullets| + (if frame % FIRE_RATE == 0 then 1 else 0)
      && r[..|bullets|] == bullets
      && (|r| > |bullets| ==> r[|bullets|] == ShotFrom(player))
  {
  }

  /** Spawning keeps every enemy already present, in order, and adds the enemy of the
      first two draws exactly when the frame is a multiple of the score's spawn interval. */
  lemma ReinforcedSpawnsOnCadence(enemies: seq<Enemy>, frame: int, score: int, rand: Rng)
    ensures var r := Reinforced(enemies, frame, score, rand);
      && |r| == |enemies| + (if frame % SpawnInterval(score) == 0 then 1 else 0)
      && r[..|enemies|] == enemies
      && (|r| > |enemies| ==> r[|enemies|] == NewEnemy(rand(0), rand(1)) && r[|enemies|].active)
  {
  }

  /** The preparation counts the frame, steers, adds at most one bullet and one enemy on
      their cadences (an enemy exactly when two draws were used), and leaves only live
      particles. */
  lemma PrepareCounts(w: World, keys: Keys, rand: Rng)
    ensures var r := Prepare(w, keys, rand);
      && r.0.frameCount == w.frameCount + 1 && r.0.player == Steer(w.player, keys)
      && |r.0.bullets| == |w.bullets| + (if FiresOn(w.frameCount + 1) then 1 else 0)
      && |r.0.enemies| == |w.enemies| + (if r.1 == 2 then 1 else 0)
      && (r.1 == 2 <==> SpawnDue(w.frameCount + 1, w.player.score))
      && (forall p :: p in r.0.particles ==> p.life > 0.0)
  {
  }

  /** Cleanup keeps exactly the active bullets and enemies and touches nothing else. */
  lemma CleanupKeepsActive(w: World)
    ensures var r := Cleanup(w);
      && r.player == w.player && r.particles == w.particles && r.frameCount == w.frameCount
      && (forall b :: b in r.bullets <==> b in w.bullets && b.active)
      && (forall e :: e in r.enemies <==> e in w.enemies && e.active)
  {
  }

  /** After a frame the counter has advanced by one, the player differs from the steered
      one only in score and hit points, and only active bullets and enemies remain. */
  lemma UpdateShape(w: World, keys: Keys, rand: Rng)
    ensures var r := Update(w, keys, rand);
      && r.frameCount == w.frameCount + 1
      && r.player == Steer(w.player, keys).(score := r.player.score, hp := r.player.hp)
      && (forall b :: b in r.bullets ==> b.active)
      && (forall e :: e in r.enemies ==> e.active)
  {
    var m := Prepare(w, keys, rand);
    var s := BulletsFrom(m.0, 0, rand, m.1);
    var c := ContactsFrom(s.0, 0, rand, s.1);
    CleanupKeepsActive(c.0);
  }

  lemma ArmedKeepsShape(bullets: seq<Bullet>, player: Player, frame: int)
    requires forall b :: b in bullets ==> FiredShape(b)
    ensures forall b :: b in Armed(bullets, player, frame) ==> FiredShape(b)
  {
    forall b | b in Armed(bullets, player, frame) ensures FiredShape(b) {
      if b !in bullets { assert b == ShotFrom(player); }
    }
  }

  lemma ReinforcedKeepsShape(enemies: seq<Enemy>, frame: int, score: int, rand: Rng)
    requires forall e :: e in enemies ==> Shaped(e) && e.hp >= 1
    ensures forall e :: e in Reinforced(enemies, frame, score, rand) ==> Shaped(e) && e.hp >= 1
  {
    forall e | e in Reinforced(enemies, frame, score, rand) ensures Shaped(e) && e.hp >= 1 {
      if e !in enemies { assert e == NewEnemy(rand(0), rand(1)); }
    }
  }

  lemma PrepareParts(w: World, keys: Keys, rand: Rng)
    ensures var m := Prepare(w, keys, rand).0;
      var player := Steer(w.player, keys);
      && m.player == player && m.frameCount == w.frameCount + 1
      && m.bullets == BulletsMoved(Armed(w.bullets, player, w.frameCount + 1))
      && m.enemies == EnemiesMoved(Reinforced(w.enemies, w.frameCount + 1, player.score, rand))
      && m.particles == Filter(ParticlesAged(w.particles), Alive)
  {
  }

  /** Facts about the state just before the collisions. */
  lemma PrepareSettles(w: World, keys: Keys, rand: Rng)
    requires Settled(w)
    ensures var m := Prepare(w, keys, rand).0;
      && m.player == w.player.(x := m.player.x)
      && 0.0 <= m.player.x <= CANVAS_WIDTH - PLAYER_WIDTH
      && m.frameCount == w.frameCount + 1
      && (forall b :: b in m.bullets ==> FiredShape(b) && (b.active ==> b.y >= -50.0))
      && (forall j :: 0 <= j < |m.enemies| ==> Shaped(m.enemies[j]) && m.enemies[j].hp >= 1)
      && (forall j :: 0 <= j < |m.enemies| && m.enemies[j].active ==> m.enemies[j].y <= CANVAS_HEIGHT)
      && (forall p :: p in m.particles ==> 0.0 < p.life <= 1.0)
  {
    var m := Prepare(w, keys, rand).0;
    var frame := w.frameCount + 1;
    var player := Steer(w.player, keys);
    var bullets := Armed(w.bullets, player, frame);
    var enemies := Reinforced(w.enemies, frame, player.score, rand);
    PrepareParts(w, keys, rand);
    ArmedKeepsShape(w.bullets, player, frame);
    MovedBulletsKeepShape(bullets);
    ReinforcedKeepsShape(w.enemies, frame, player.score, rand);
    MovedEnemiesKeepShape(enemies);
    AgedParticlesLive(w.particles);
  }

  /** Bullets only lose their flag in the collision phases, so the survivors of cleanup
      keep the fired shape and were active, hence within bounds, after the move. */
  lemma PhasesKeepBullets(m: World, s: World, c: World)
    requires forall b :: b in m.bullets ==> FiredShape(b) && (b.active ==> b.y >= -50.0)
    requires BulletPhase(m, s) && ContactPhase(s, c)
    ensures forall b :: b in Cleanup(c).bullets ==> b.active && FiredShape(b) && b.y >= -50.0
  {
    forall b | b in Cleanup(c).bullets ensures b.active && FiredShape(b) && b.y >= -50.0 {
      var i :| 0 <= i < |c.bullets| && c.bullets[i] == b;
      assert Spent(m.bullets[i], s.bullets[i]);
      assert m.bullets[i] in m.bullets;
    }
  }

  /** Enemies only lose hit points and flags in the collision phases, so the survivors of
      cleanup keep their type's shape, have hit points left and were active, hence not
      below the canvas, after the move. */
  lemma PhasesKeepEnemies(m: World, s: World, c: World)
    requires forall j :: 0 <= j < |m.enemies| ==> Shaped(m.enemies[j]) && m.enemies[j].hp >= 1
    requires forall j :: 0 <= j < |m.enemies| && m.enemies[j].active ==> m.enemies[j].y <= CANVAS_HEIGHT
    requires BulletPhase(m, s) && ContactPhase(s, c)
    ensures forall e :: e in Cleanup(c).enemies ==> e.active && e.hp >= 1 && Shaped(e) && e.y <= CANVAS_HEIGHT
  {
    forall e | e in Cleanup(c).enemies ensures e.active && e.hp >= 1 && Shaped(e) && e.y <= CANVAS_HEIGHT {
      var j :| 0 <= j < |c.enemies| && c.enemies[j] == e;
      assert Wears(m.enemies[j], s.enemies[j]);
      assert Rammed(s.enemies[j], c.enemies[j]);
    }
  }

  /** The particles after the collision phases are the live ones from before followed
      by fresh bursts, so all of them have life in (0, 1]. */
  lemma PhasesKeepParticles(m: World, s: World, c: World)
    requires forall p :: p in m.particles ==> 0.0 < p.life <= 1.0
    requires BulletPhase(m, s) && ContactPhase(s, c)
    ensures forall p :: p in c.particles ==> 0.0 < p.life <= 1.0
  {
    AppendedTransitive(m.particles, s.particles, c.particles,
      SumOver(m.enemies, s.enemies, Wound) + SumOver(m.enemies, s.enemies, Destroyed),
      SumOver(s.enemies, c.enemies, Destroyed));
    forall p | p in c.particles ensures 0.0 < p.life <= 1.0 {
      var q :| 0 <= q < |c.particles| && c.particles[q] == p;
      if q < |m.particles| {
        assert c.particles[..|m.particles|][q] == p;
        assert p in m.particles;
      }
    }
  }

  /** Every frame preserves what holds between frames. */
  lemma UpdateSettled(w: World, keys: Keys, rand: Rng)
    requires Settled(w)
    ensures Settled(Update(w, keys, rand))
  {
    var m := Prepare(w, keys, rand);
    var s := BulletsFrom(m.0, 0, rand, m.1);
    var c := ContactsFrom(s.0, 0, rand, s.1);
    PrepareSettles(w, keys, rand);
    BulletsFromIsBulletPhase(m.0, 0, rand, m.1);
    ContactsFromIsContactPhase(s.0, 0, rand, s.1);
    PhasesKeepBullets(m.0, s.0, c.0);
    PhasesKeepEnemies(m.0, s.0, c.0);
    PhasesKeepParticles(m.0, s.0, c.0);
  }

  /** The accounting of one frame. The score rises by exactly the points of the enemies
      the bullets destroyed and by nothing else; the player loses exactly 20 hit points per
      enemy that rammed it; the particles are the survivors of ageing followed by fresh
      bursts, so the new bursts are not aged in the frame that creates them. */
  lemma FrameAccounting(w: World, keys: Keys, rand: Rng)
    ensures var m := Prepare(w, keys, rand);
      var s := BulletsFrom(m.0, 0, rand, m.1);
      var c := ContactsFrom(s.0, 0, rand, s.1);
      var u := Update(w, keys, rand);
      && u.frameCount == w.frameCount + 1
      && u.player.score == w.player.score + SumOver(m.0.enemies, s.0.enemies, Bounty)
      && u.player.score >= w.player.score
      && u.player.hp == w.player.hp - 20 * SumOver(s.0.enemies, c.0.enemies, Destroyed)
      && u.player.hp <= w.player.hp
      && |Filter(ParticlesAged(w.particles), Alive)| <= |u.particles|
      && u.particles[..|Filter(ParticlesAged(w.particles), Alive)|] == Filter(ParticlesAged(w.particles), Alive)
      && (forall q :: |Filter(ParticlesAged(w.particles), Alive)| <= q < |u.particles| ==> u.particles[q].life == 1.0)
  {
    var m := Prepare(w, keys, rand);
    var s := BulletsFrom(m.0, 0, rand, m.1);
    var c := ContactsFrom(s.0, 0, rand, s.1);
    BulletsFromIsBulletPhase(m.0, 0, rand, m.1);
    ContactsFromIsContactPhase(s.0, 0, rand, s.1);
    assert forall j :: 0 <= j < |s.0.enemies| ==> Destroyed(s.0.enemies[j], c.0.enemies[j]) >= 0;
    SumOverNonNegative(s.0.enemies, c.0.enemies, Destroyed);
    AppendedTransitive(m.0.particles, s.0.particles, c.0.particles,
      SumOver(m.0.enemies, s.0.enemies, Wound) + SumOver(m.0.enemies, s.0.enemies, Destroyed),
      SumOver(s.0.enemies, c.0.enemies, Destroyed));
  }
}
