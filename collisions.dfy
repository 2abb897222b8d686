/** The two collision phases of a frame as functions of the state, in the order the
    component's nested loops visit the entity lists:
    - bullets against enemies: every bullet that is active when the outer loop reaches it
      is tested against every enemy; an active, overlapping enemy loses one hit point, the
      bullet is spent and an impact burst appears; an enemy left with no hit points is
      destroyed, awards its points and bursts. The inner loop does not look at the bullet's
      flag again, so one bullet damages every active enemy it overlaps in that frame.
    - enemies against the player: every active enemy that overlaps the player is destroyed
      and costs the player 20 hit points, whatever its type.
    The draw counter k numbers the Math.random() values the bursts consume. */
module Collisions {
  import opened Types
  import opened Rules
  import opened Ledger

  const IMPACT_COLOR: string := "#fff"
  const CONTACT_COLOR: string := "#ef4444"

  // ---------------------------------------------------------------------------------
  // Bullets against enemies

  /** The body of the inner loop for bullet i and enemy j. */
  function Hit(w: World, i: nat, j: nat, rand: Rng, k: nat): (r: (World, nat))
    requires i < |w.bullets| && j < |w.enemies|
    ensures |r.0.bullets| == |w.bullets| && |r.0.enemies| == |w.enemies|
    ensures !w.enemies[j].active || !BulletHits(w.bullets[i], w.enemies[j]) ==> r == (w, k)
    ensures w.enemies[j].active && BulletHits(w.bullets[i], w.enemies[j]) ==>
      && !r.0.bullets[i].active
      && r.0.enemies[j].hp == w.enemies[j].hp - 1
      && (r.0.enemies[j].active <==> r.0.enemies[j].hp > 0)
      && r.0.player.score == w.player.score + (if r.0.enemies[j].active then 0 else Points(w.enemies[j].kind))
      && |r.0.particles| == |w.particles| + (if r.0.enemies[j].active then 8 else 16)
  {
    var b := w.bullets[i];
    var e := w.enemies[j];
    if !e.active || !BulletHits(b, e) then (w, k)
    else
      var wounded := e.(hp := e.hp - 1);
      var bullets := w.bullets[i := b.(active := false)];
      var particles := w.particles + Burst(b.x, b.y, IMPACT_COLOR, rand, k);
      if wounded.hp <= 0 then
        (w.(player := w.player.(score := w.player.score + Points(e.kind)),
            bullets := bullets,
            enemies := w.enemies[j := wounded.(active := false)],
            particles := particles + Burst(e.x + e.width / 2.0, e.y + e.height / 2.0, e.color, rand, k + 24)),
         k + 48)
      else
        (w.(bullets := bullets, enemies := w.enemies[j := wounded], particles := particles), k + 24)
  }

  /** Where a hit's particles go: the old particles stay first; then the impact burst of
      draws k .. k + 23, at the bullet's position in white; and, when the enemy is destroyed,
      the destruction burst of draws k + 24 .. k + 47, at the enemy's centre in its colour. */
  lemma HitPlacesBursts(w: World, i: nat, j: nat, rand: Rng, k: nat)
    requires i < |w.bullets| && j < |w.enemies|
    requires w.enemies[j].active && BulletHits(w.bullets[i], w.enemies[j])
    ensures var r := Hit(w, i, j, rand, k); var b := w.bullets[i]; var e := w.enemies[j];
      var n := |w.particles|;
      && r.0.particles[..n] == w.particles
      && r.0.particles[n..n + 8] == Burst(b.x, b.y, IMPACT_COLOR, rand, k)
      && (forall q :: n <= q < n + 8 ==>
            r.0.particles[q].x == b.x && r.0.particles[q].y == b.y
            && r.0.particles[q].color == IMPACT_COLOR && r.0.particles[q].life == 1.0)
      && (!r.0.enemies[j].active ==>
            && r.0.particles[n + 8..] == Burst(e.x + e.width / 2.0, e.y + e.height / 2.0, e.color, rand, k + 24)
            && (forall q :: n + 8 <= q < n + 16 ==>
                  r.0.particles[q].x == e.x + e.width / 2.0 && r.0.particles[q].y == e.y + e.height / 2.0
                  && r.0.particles[q].color == e.color && r.0.particles[q].life == 1.0))
  {
    var r := Hit(w, i, j, rand, k);
    var b := w.bullets[i];
    var e := w.enemies[j];
    var n := |w.particles|;
    var impact := Burst(b.x, b.y, IMPACT_COLOR, rand, k);
    if r.0.enemies[j].active {
      assert r.0.particles == w.particles + impact;
    } else {
      var wreck := Burst(e.x + e.width / 2.0, e.y + e.height / 2.0, e.color, rand, k + 24);
      assert r.0.particles == w.particles + impact + wreck;
      assert r.0.particles[n + 8..] == wreck;
    }
    assert r.0.particles[n..n + 8] == impact;
  }

  /** The inner loop for bullet i, from enemy j to the end of the list. */
  function SweepFrom(w: World, i: nat, j: nat, rand: Rng, k: nat): (r: (World, nat))
    requires i < |w.bullets| && j <= |w.enemies|
    ensures |r.0.bullets| == |w.bullets| && |r.0.enemies| == |w.enemies|
    decreases |w.enemies| - j
  {
    if j == |w.enemies| then (w, k)
    else
      var h := Hit(w, i, j, rand, k);
      SweepFrom(h.0, i, j + 1, rand, h.1)
  }

  /** The inner loop for one bullet leaves the frame counter alone, changes the player
      only in a score that never falls, and consumes three random draws per particle it
      adds. */
  lemma {:induction false} SweepAccounts(w: World, i: nat, j: nat, rand: Rng, k: nat)
    requires i < |w.bullets| && j <= |w.enemies|
    ensures var r := SweepFrom(w, i, j, rand, k);
      && r.0.frameCount == w.frameCount
      && r.0.player == w.player.(score := r.0.player.score) && r.0.player.score >= w.player.score
      && |r.0.particles| >= |w.particles| && r.1 - k == 3 * (|r.0.particles| - |w.particles|)
    decreases |w.enemies| - j
  {
    if j < |w.enemies| {
      var h := Hit(w, i, j, rand, k);
      SweepAccounts(h.0, i, j + 1, rand, h.1);
    }
  }

  /** The outer loop from bullet i on: a bullet that is inactive when the loop reaches it
      is skipped. */
  function BulletsFrom(w: World, i: nat, rand: Rng, k: nat): (r: (World, nat))
    requires i <= |w.bullets|
    ensures |r.0.bullets| == |w.bullets| && |r.0.enemies| == |w.enemies|
    ensures r.0.frameCount == w.frameCount
    ensures r.0.player == w.player.(score := r.0.player.score) && r.0.player.score >= w.player.score
    ensures |r.0.particles| >= |w.particles| && r.1 - k == 3 * (|r.0.particles| - |w.particles|)
    decreases |w.bullets| - i
  {
    if i == |w.bullets| then (w, k)
    else if !w.bullets[i].active then BulletsFrom(w, i + 1, rand, k)
    else
      var s := SweepFrom(w, i, 0, rand, k);
      SweepAccounts(w, i, 0, rand, k);
      BulletsFrom(s.0, i + 1, rand, s.1)
  }

  // ---------------------------------------------------------------------------------
  // What the bullet phase may do

  /** A bullet may only be spent. */
  ghost predicate Spent(b: Bullet, b': Bullet)
  {
    b' == b.(active := b'.active) && (b'.active ==> b.active)
  }

  /** An enemy may only lose hit points and be deactivated, and only once it has none
      left; an inactive enemy is never touched; an active enemy with hit points stays
      active only while it has some. */
  ghost predicate Wears(e: Enemy, e': Enemy)
  {
    && e' == e.(hp := e'.hp, active := e'.active)
    && e'.hp <= e.hp
    && (!e.active ==> e' == e)
    && (e.active && !e'.active ==> e'.hp <= 0)
    && (e.active && e.hp >= 1 && e'.active ==> e'.hp >= 1)
  }

  /** ps' is ps followed by n bursts of fresh particles. */
  ghost predicate Appended(ps: seq<Particle>, ps': seq<Particle>, n: int)
  {
    && |ps| <= |ps'| == |ps| + 8 * n
    && ps'[..|ps|] == ps
    && forall q :: |ps| <= q < |ps'| ==> ps'[q].life == 1.0
  }

  /** The accounting of the bullet phase: score grows by the points of exactly the
      enemies it destroyed, and one burst is added per hit point lost plus one per enemy
      destroyed. */
  ghost predicate BulletPhase(w: World, w': World)
  {
    && |w'.bullets| == |w.bullets| && |w'.enemies| == |w.enemies|
    && w'.frameCount == w.frameCount
    && w'.player == w.player.(score := w'.player.score)
    && (forall i :: 0 <= i < |w.bullets| ==> Spent(w.bullets[i], w'.bullets[i]))
    && (forall j :: 0 <= j < |w.enemies| ==> Wears(w.enemies[j], w'.enemies[j]))
    && w'.player.score == w.player.score + SumOver(w.enemies, w'.enemies, Bounty)
    && Appended(w.particles, w'.particles,
                SumOver(w.enemies, w'.enemies, Wound) + SumOver(w.enemies, w'.enemies, Destroyed))
  }

  lemma BulletPhaseReflexive(w: World)
    ensures BulletPhase(w, w)
  {
    SumOverUnchanged(w.enemies, Bounty);
    SumOverUnchanged(w.enemies, Wound);
    SumOverUnchanged(w.enemies, Destroyed);
  }

  lemma AppendedTransitive(a: seq<Particle>, b: seq<Particle>, c: seq<Particle>, m: int, n: int)
    requires Appended(a, b, m) && Appended(b, c, n)
    ensures Appended(a, c, m + n)
  {
    assert c[..|a|] == c[..|b|][..|a|];
    forall q | |a| <= q < |c|
      ensures c[q].life == 1.0
    {
      if q < |b| {
        assert c[q] == c[..|b|][q];
      }
    }
  }

  lemma BulletPhaseTransitive(a: World, b: World, c: World)
    requires BulletPhase(a, b) && BulletPhase(b, c)
    ensures BulletPhase(a, c)
  {
    SumOverChain(a.enemies, b.enemies, c.enemies, Bounty);
    SumOverChain(a.enemies, b.enemies, c.enemies, Wound);
    SumOverChain(a.enemies, b.enemies, c.enemies, Destroyed);
    AppendedTransitive(a.particles, b.particles, c.particles,
      SumOver(a.enemies, b.enemies, Wound) + SumOver(a.enemies, b.enemies, Destroyed),
      SumOver(b.enemies, c.enemies, Wound) + SumOver(b.enemies, c.enemies, Destroyed));
  }

  lemma HitIsBulletPhase(w: World, i: nat, j: nat, rand: Rng, k: nat)
    requires i < |w.bullets| && j < |w.enemies|
    ensures BulletPhase(w, Hit(w, i, j, rand, k).0)
  {
    var w' := Hit(w, i, j, rand, k).0;
    if w' == w {
      BulletPhaseReflexive(w);
    } else {
      assert w'.enemies == w.enemies[j := w'.enemies[j]];
      SumOverUpdate(w.enemies, j, w'.enemies[j], Bounty);
      SumOverUpdate(w.enemies, j, w'.enemies[j], Wound);
      SumOverUpdate(w.enemies, j, w'.enemies[j], Destroyed);
      assert w'.particles[..|w.particles|] == w.particles;
    }
  }

  lemma {:induction false} SweepIsBulletPhase(w: World, i: nat, j: nat, rand: Rng, k: nat)
    requires i < |w.bullets| && j <= |w.enemies|
    ensures BulletPhase(w, SweepFrom(w, i, j, rand, k).0)
    decreases |w.enemies| - j
  {
    if j == |w.enemies| {
      BulletPhaseReflexive(w);
    } else {
      var h := Hit(w, i, j, rand, k);
      HitIsBulletPhase(w, i, j, rand, k);
      SweepIsBulletPhase(h.0, i, j + 1, rand, h.1);
      BulletPhaseTransitive(w, h.0, SweepFrom(h.0, i, j + 1, rand, h.1).0);
    }
  }

  /** The whole bullet phase keeps the accounting of BulletPhase: scores only ever rise,
      by the points of the enemies it destroyed, each counted once. */
  lemma {:induction false} BulletsFromIsBulletPhase(w: World, i: nat, rand: Rng, k: nat)
    requires i <= |w.bullets|
    ensures BulletPhase(w, BulletsFrom(w, i, rand, k).0)
    ensures BulletsFrom(w, i, rand, k).0.player.score >= w.player.score
    decreases |w.bullets| - i
  {
    var r := BulletsFrom(w, i, rand, k).0;
    if i == |w.bullets| {
      BulletPhaseReflexive(w);
    } else if !w.bullets[i].active {
      BulletsFromIsBulletPhase(w, i + 1, rand, k);
    } else {
      var s := SweepFrom(w, i, 0, rand, k);
      SweepIsBulletPhase(w, i, 0, rand, k);
      BulletsFromIsBulletPhase(s.0, i + 1, rand, s.1);
      BulletPhaseTransitive(w, s.0, r);
    }
    SumOverNonNegative(w.enemies, r.enemies, Bounty);
  }

  // ---------------------------------------------------------------------------------
  // One bullet, many enemies

  /** An enemy after one hit: one hit point less, and destroyed when none is left. */
  function Damaged(e: Enemy): Enemy
  {
    e.(hp := e.hp - 1, active := e.hp > 1)
  }

  /** Bullet b overlaps an active enemy at position j or later. */
  ghost predicate HitsSome(b: Bullet, es: seq<Enemy>, j: nat)
  {
    exists m :: j <= m < |es| && es[m].active && BulletHits(b, es[m])
  }

  /** The inner loop for bullet i damages, once each, every active enemy from position j
      on that the bullet overlaps, leaves every other enemy and every other bullet alone,
      and spends the bullet exactly when it overlapped at least one of them. */
  lemma {:induction false} SweepHitsEveryOverlap(w: World, i: nat, j: nat, rand: Rng, k: nat)
    requires i < |w.bullets| && j <= |w.enemies|
    ensures var r := SweepFrom(w, i, j, rand, k).0;
      && (forall m :: 0 <= m < j ==> r.enemies[m] == w.enemies[m])
      && (forall m :: j <= m < |w.enemies| ==>
            r.enemies[m] == if w.enemies[m].active && BulletHits(w.bullets[i], w.enemies[m])
                            then Damaged(w.enemies[m]) else w.enemies[m])
      && (forall n :: 0 <= n < |w.bullets| && n != i ==> r.bullets[n] == w.bullets[n])
      && r.bullets[i] == w.bullets[i].(active := w.bullets[i].active && !HitsSome(w.bullets[i], w.enemies, j))
    decreases |w.enemies| - j
  {
    var b := w.bullets[i];
    if j < |w.enemies| {
      var h := Hit(w, i, j, rand, k);
      SweepHitsEveryOverlap(h.0, i, j + 1, rand, h.1);
      assert h.0.bullets[i] == b.(active := h.0.bullets[i].active);
      assert forall m :: j < m < |w.enemies| ==> h.0.enemies[m] == w.enemies[m];
      assert forall m :: j < m < |w.enemies| ==> (BulletHits(h.0.bullets[i], h.0.enemies[m]) <==> BulletHits(b, w.enemies[m]));
      HitsSomeUnfold(b, w.enemies, j);
      HitsSomeAgree(b, w.enemies, h.0.bullets[i], h.0.enemies, j + 1);
    }
  }

  lemma HitsSomeUnfold(b: Bullet, es: seq<Enemy>, j: nat)
    requires j < |es|
    ensures HitsSome(b, es, j) <==> (es[j].active && BulletHits(b, es[j])) || HitsSome(b, es, j + 1)
  {
    if HitsSome(b, es, j) {
      var m :| j <= m < |es| && es[m].active && BulletHits(b, es[m]);
      if m > j { assert HitsSome(b, es, j + 1); }
    }
  }

  /** Whether a bullet overlaps a later enemy depends only on the rectangles and the
      enemies' flags, not on the bullet's own flag. */
  lemma HitsSomeAgree(b: Bullet, es: seq<Enemy>, b': Bullet, es': seq<Enemy>, j: nat)
    requires |es'| == |es| && b' == b.(active := b'.active)
    requires forall m :: j <= m < |es| ==> es'[m] == es[m]
    ensures HitsSome(b, es, j) <==> HitsSome(b', es', j)
  {
    if HitsSome(b, es, j) {
      var m :| j <= m < |es| && es[m].active && BulletHits(b, es[m]);
      assert es'[m].active && BulletHits(b', es'[m]);
    }
    if HitsSome(b', es', j) {
      var m :| j <= m < |es| && es'[m].active && BulletHits(b', es'[m]);
      assert es[m].active && BulletHits(b, es[m]);
    }
  }

  // ---------------------------------------------------------------------------------
  // Enemies against the player

  /** The body of the enemy-against-player loop for enemy j. */
  function Contact(w: World, j: nat, rand: Rng, k: nat): (r: (World, nat))
    requires j < |w.enemies|
    ensures |r.0.enemies| == |w.enemies|
    ensures !w.enemies[j].active || !Touches(w.player, w.enemies[j]) ==> r == (w, k)
    ensures w.enemies[j].active && Touches(w.player, w.enemies[j]) ==>
      && !r.0.enemies[j].active
      && r.0.player.hp == w.player.hp - 20
      && |r.0.particles| == |w.particles| + 8
    ensures |r.0.particles| >= |w.particles| && r.1 - k == 3 * (|r.0.particles| - |w.particles|)
  {
    var e := w.enemies[j];
    if !e.active || !Touches(w.player, e) then (w, k)
    else
      (w.(enemies := w.enemies[j := e.(active := false)],
          player := w.player.(hp := w.player.hp - 20),
          particles := w.particles + Burst(e.x + e.width / 2.0, e.y + e.height / 2.0, CONTACT_COLOR, rand, k)),
       k + 24)
  }

  /** Where a contact's particles go: the old particles stay first, then the burst of
      draws k .. k + 23 at the enemy's centre in red. */
  lemma ContactPlacesBurst(w: World, j: nat, rand: Rng, k: nat)
    requires j < |w.enemies|
    requires w.enemies[j].active && Touches(w.player, w.enemies[j])
    ensures var r := Contact(w, j, rand, k); var e := w.enemies[j]; var n := |w.particles|;
      && r.0.particles[..n] == w.particles
      && r.0.particles[n..] == Burst(e.x + e.width / 2.0, e.y + e.height / 2.0, CONTACT_COLOR, rand, k)
      && (forall q :: n <= q < n + 8 ==>
            r.0.particles[q].x == e.x + e.width / 2.0 && r.0.particles[q].y == e.y + e.height / 2.0
            && r.0.particles[q].color == CONTACT_COLOR && r.0.particles[q].life == 1.0)
  {
    var r := Contact(w, j, rand, k);
    var e := w.enemies[j];
    var burst := Burst(e.x + e.width / 2.0, e.y + e.height / 2.0, CONTACT_COLOR, rand, k);
    assert r.0.particles == w.particles + burst;
    assert r.0.particles[|w.particles|..] == burst;
  }

  /** The enemy-against-player loop from enemy j to the end of the list. */
  function ContactsFrom(w: World, j: nat, rand: Rng, k: nat): (r: (World, nat))
    requires j <= |w.enemies|
    ensures |r.0.enemies| == |w.enemies|
    ensures r.0.bullets == w.bullets && r.0.frameCount == w.frameCount
    ensures r.0.player == w.player.(hp := r.0.player.hp) && r.0.player.hp <= w.player.hp
    ensures |r.0.particles| >= |w.particles| && r.1 - k == 3 * (|r.0.particles| - |w.particles|)
    decreases |w.enemies| - j
  {
    if j == |w.enemies| then (w, k)
    else
      var c := Contact(w, j, rand, k);
      ContactsFrom(c.0, j + 1, rand, c.1)
  }

  /** An enemy may only be deactivated by the contact phase. */
  ghost predicate Rammed(e: Enemy, e': Enemy)
  {
    e' == e.(active := e'.active) && (e'.active ==> e.active)
  }

  /** The accounting of the contact phase: the player loses 20 hit points per enemy it
      destroyed, and one burst appears per such enemy; nothing else changes. */
  ghost predicate ContactPhase(w: World, w': World)
  {
    && |w'.enemies| == |w.enemies|
    && w'.bullets == w.bullets && w'.frameCount == w.frameCount
    && w'.player == w.player.(hp := w'.player.hp)
    && (forall j :: 0 <= j < |w.enemies| ==> Rammed(w.enemies[j], w'.enemies[j]))
    && w'.player.hp == w.player.hp - 20 * SumOver(w.enemies, w'.enemies, Destroyed)
    && Appended(w.particles, w'.particles, SumOver(w.enemies, w'.enemies, Destroyed))
  }

  lemma ContactPhaseReflexive(w: World)
    ensures ContactPhase(w, w)
  {
    SumOverUnchanged(w.enemies, Destroyed);
  }

  lemma ContactPhaseTransitive(a: World, b: World, c: World)
    requires ContactPhase(a, b) && ContactPhase(b, c)
    ensures ContactPhase(a, c)
  {
    SumOverChain(a.enemies, b.enemies, c.enemies, Destroyed);
    AppendedTransitive(a.particles, b.particles, c.particles,
      SumOver(a.enemies, b.enemies, Destroyed), SumOver(b.enemies, c.enemies, Destroyed));
  }

  lemma ContactIsContactPhase(w: World, j: nat, rand: Rng, k: nat)
    requires j < |w.enemies|
    ensures ContactPhase(w, Contact(w, j, rand, k).0)
  {
    var w' := Contact(w, j, rand, k).0;
    if w' == w {
      ContactPhaseReflexive(w);
    } else {
      SumOverUpdate(w.enemies, j, w'.enemies[j], Destroyed);
      assert w'.particles[..|w.particles|] == w.particles;
    }
  }

  /** The whole contact phase keeps the accounting of ContactPhase. */
  lemma {:induction false} ContactsFromIsContactPhase(w: World, j: nat, rand: Rng, k: nat)
    requires j <= |w.enemies|
    ensures ContactPhase(w, ContactsFrom(w, j, rand, k).0)
    decreases |w.enemies| - j
  {
    if j == |w.enemies| {
      ContactPhaseReflexive(w);
    } else {
      var c := Contact(w, j, rand, k);
      ContactIsContactPhase(w, j, rand, k);
      ContactsFromIsContactPhase(c.0, j + 1, rand, c.1);
      ContactPhaseTransitive(w, c.0, ContactsFrom(c.0, j + 1, rand, c.1).0);
    }
  }

  /** The contact loop from position j on deactivates exactly the enemies that were
      active and overlapped the player, and leaves every other enemy as it was. */
  lemma {:induction false} ContactsFromDeactivates(w: World, j: nat, rand: Rng, k: nat)
    requires j <= |w.enemies|
    ensures var r := ContactsFrom(w, j, rand, k).0;
      && (forall m :: 0 <= m < j ==> r.enemies[m] == w.enemies[m])
      && (forall m :: j <= m < |w.enemies| ==>
            r.enemies[m] == if w.enemies[m].active && Touches(w.player, w.enemies[m])
                            then w.enemies[m].(active := false) else w.enemies[m])
    decreases |w.enemies| - j
  {
    if j < |w.enemies| {
      var c := Contact(w, j, rand, k);
      ContactsFromDeactivates(c.0, j + 1, rand, c.1);
      assert forall m :: 0 <= m < |w.enemies| && m != j ==> c.0.enemies[m] == w.enemies[m];
      assert c.0.player == w.player.(hp := c.0.player.hp);
    }
  }
}
