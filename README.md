# Arcade shooter: the frame simulation and the session state machine

This project models the game logic of a browser arcade shooter written as two React components.

- The canvas component keeps the game state in mutable references: the player craft, the bullet, enemy and particle lists, a frame counter and the session start time. Once per animation frame it runs an update that:
  - counts the frame;
  - steers the craft from the held keys and clamps it to the canvas;
  - fires automatically every tenth frame;
  - spawns enemies on a cadence that tightens with the score;
  - moves bullets and enemies and retires those that leave the canvas;
  - ages and prunes particles;
  - resolves bullet-against-enemy hits (damage, score, explosion particles);
  - resolves enemy-against-player contacts (20 hit points each);
  - drops inactive entities;
  - ends the session when the player has no hit points left.

  Whenever the status becomes PLAYING, a reset effect rebuilds the whole state.
- The App component holds the session status (MENU, PLAYING, GAME_OVER) and the last score and duration, with one handler per transition, and decides which overlay is shown.

Modules:

- `Types` and `Constants` hold the records and constants.
- `Rules` holds the per-entity rules: overlap, clamp, steering, fire and spawn cadence, enemy types, motion, explosions and filtering.
- `Ledger` holds sums over a before/after pair of enemy lists, used for the score and damage accounting.
- `Collisions` holds the two collision loops as functions of the state, in the order the loops visit the lists.
- `Frame` holds one whole frame as a function of the state, the invariant kept between frames and the accounting of a frame.
- `GameCanvas` holds the class `Game`, whose fields are the component's state. Its methods perform each phase in place, and each is proved to produce the state the functions above describe.
- `App` holds the class `Shell`, with the App component's state and handlers, and the class `Session`, which ties the shell to a canvas: entering a session resets the canvas, frames run only while playing, and a frame that ends the session hands its result to the shell.

Randomness and time are inputs:

- Each frame receives a stream `rand: nat -> [0, 1)`. Its draws are numbered in the order the code calls `Math.random()`:
  - two per spawned enemy (type, then position);
  - three per particle (horizontal velocity, vertical velocity, size), so 24 per explosion.
- `Date.now()` is a parameter of the reset and of the frame.
- Positions, sizes and velocities are exact reals. Hit points, score and the frame counter are integers.

Two behaviours are modelled as the code does them, not as one might expect:

- **Tank enemies never appear.** In `spawnEnemy` the test `typeRoll > 0.8` comes before `typeRoll > 0.95`, so the 'tank' branch is unreachable. `Rules.KindFor` keeps that branch and proves it is never taken.
- **One bullet can hit several enemies.** One might expect a bullet to be spent on the first enemy it hits. The code instead tests a bullet that was active when the outer loop reached it against every enemy, and never checks the bullet's flag again. So one bullet damages every active enemy it overlaps in that frame. The model follows the code; `Collisions.SweepHitsEveryOverlap` states it.

## Model

| member | source | states |
|---|---|---|
| Rules.OverlapsByCentres | components/GameCanvas.tsx:216-221 | the strict four-inequality rectangle test (Overlaps) holds exactly when, on each axis, the two centres are closer than half the sum of the extents |
| Rules.BulletHitsByCentres | components/GameCanvas.tsx:216-221 | a bullet hits an enemy exactly when their centres are closer, on each axis, than half the sum of their extents |
| Rules.TouchesByCentres | components/GameCanvas.tsx:237-242 | an enemy touches the player exactly when their centres are closer, on each axis, than half the sum of their extents |
| Rules.OverlapsSymmetricAndStrict | components/GameCanvas.tsx:216-221 | the rectangle test is symmetric, and rectangles that only share an edge do not overlap |
| Rules.Clamp | components/GameCanvas.tsx:166 | the clamped position lies in [0, 800 − width], equals x when x is already there, and is the nearer bound otherwise |
| Rules.PointerX | components/GameCanvas.tsx:53-65 | the pointer handlers put the craft in [0, 760], centred under the pointer whenever the pointer is in [20, 780], at exactly 0 for a pointer left of 20 and at exactly 760 for a pointer right of 780 |
| Rules.Steer | components/GameCanvas.tsx:161-166 | keyboard steering changes only x, and x ends in [0, 800 − width]. From an on-canvas position: with only ArrowLeft or 'a' held, the craft moves exactly 5 left, or stops at 0 when it has less room; with only ArrowRight or 'd' held, exactly 5 right, or stops at 800 − width; with both directions or no key held it stays put. It never moves more than 5 units |
| Rules.ShotFrom | components/GameCanvas.tsx:169-181 | a fired bullet is centred on the craft, starts at the craft's y, is 6×15, moves up at 10 units per frame and is active |
| Rules.SpawnInterval | components/GameCanvas.tsx:185 | the spawn interval is at least 20, at most 60 for non-negative scores, 60 below 500 points, 55 from 500 to 999, and 20 from 4000 on |
| Rules.SpawnIntervalMonotone | components/GameCanvas.tsx:185 | a higher score never gives a longer spawn interval |
| Rules.SpawnIntervalRamp | components/GameCanvas.tsx:185 | 500 more points shorten the interval by exactly 5 frames, down to the floor of 20 |
| Rules.Points | components/GameCanvas.tsx:227 | every enemy type is worth a positive score (10, 20 or 50) |
| Rules.KindFor | components/GameCanvas.tsx:120-130 | the type is 'fast' exactly when the roll exceeds 0.8 and 'basic' exactly when it does not; 'tank' is never chosen |
| Rules.NewEnemy | components/GameCanvas.tsx:119-141 | a spawned enemy has its type's size, colour, hit points and speed (fast 30×30, hp 1, speed 6; basic 40×40, hp 1, speed 3), is active, starts just above the canvas (y = −height), and has x in [0, 800 − width) |
| Rules.Flown | components/GameCanvas.tsx:192-193 | a bullet changes only y, by its velocity, and its flag; it stays active exactly when it was active and the new y is not below −50 |
| Rules.Fallen | components/GameCanvas.tsx:198-199 | an enemy changes only y, by its velocity, and its flag; it stays active exactly when it was active and the new y is not past 600 |
| Rules.Aged | components/GameCanvas.tsx:204-206 | a particle changes only its position, by its velocity, and its life, which drops by exactly 0.05 |
| Rules.BulletsMoved | components/GameCanvas.tsx:190-194 | every bullet moves by its velocity and nothing else changes; it stays active exactly when it was active and is not above y = −50 |
| Rules.EnemiesMoved | components/GameCanvas.tsx:196-200 | every enemy moves by its velocity; it stays active exactly when it was active and is not below the canvas |
| Rules.ParticlesAged | components/GameCanvas.tsx:202-207 | every particle drifts by its velocity and loses exactly 0.05 of life; its velocity, colour and size stay; none is added or removed |
| Rules.Burst | components/GameCanvas.tsx:143-154 | an explosion is 8 particles at the given point, in the given colour, with life 1.0, velocities in [−5, 5) and sizes in [2, 6) |
| Rules.Filter | components/GameCanvas.tsx:250-252 | filtering keeps exactly the elements that pass, takes nothing new, and returns the list unchanged when every element passes |
| Rules.FilterKeepsCount | components/GameCanvas.tsx:250-252 | every element that passes occurs in the result exactly as often as in the input |
| Rules.FilterAppend | components/GameCanvas.tsx:250-252 | filtering a concatenation is the concatenation of the filtered parts, so kept elements stay in their order |
| Collisions.Hit | components/GameCanvas.tsx:215-230 | a miss, or an inactive enemy, changes nothing. A hit spends the bullet, takes exactly one hit point from the enemy and adds 8 particles. The enemy is deactivated exactly when no hit points are left; then the score rises by its points and 8 more particles appear |
| Collisions.HitPlacesBursts | components/GameCanvas.tsx:222-229 | a hit keeps the old particles first, then appends the impact burst at the bullet's position in '#fff', then, when the enemy is destroyed, the destruction burst at the enemy's centre in the enemy's colour, each the createExplosion burst of its draws |
| Collisions.SweepFrom | components/GameCanvas.tsx:214-231 | the inner loop keeps both list lengths; its effect is stated by SweepHitsEveryOverlap, SweepIsBulletPhase and SweepAccounts |
| Collisions.SweepAccounts | components/GameCanvas.tsx:214-231 | the inner loop leaves the frame counter, changes the player only in a score that never falls, and consumes three random draws per particle it adds |
| Collisions.BulletsFrom | components/GameCanvas.tsx:212-232 | the outer loop keeps both list lengths and the frame counter; it changes the player only in a score that never falls, and consumes three random draws per particle it adds |
| Collisions.HitIsBulletPhase | components/GameCanvas.tsx:212-231 | one hit keeps the bullet-phase accounting: bullets are only spent, enemies only lose hit points and are deactivated only at 0, the score grows by the points of the enemies destroyed, and one burst is added per hit point lost plus one per enemy destroyed |
| Collisions.SweepIsBulletPhase | components/GameCanvas.tsx:214-231 | the inner loop for one bullet keeps the same accounting |
| Collisions.BulletsFromIsBulletPhase | components/GameCanvas.tsx:212-232 | the whole bullet-against-enemy loop keeps the accounting; the score never decreases, and each destroyed enemy is counted exactly once |
| Collisions.SweepHitsEveryOverlap | components/GameCanvas.tsx:212-231 | for one bullet: every active enemy it overlaps loses exactly one hit point, and is deactivated when none remain; every other enemy and every other bullet is unchanged; the bullet is spent exactly when it overlapped at least one active enemy |
| Collisions.Contact | components/GameCanvas.tsx:235-247 | an inactive or non-touching enemy changes nothing; a touching one is deactivated, costs exactly 20 hit points whatever its type, and adds 8 particles using 24 draws |
| Collisions.ContactPlacesBurst | components/GameCanvas.tsx:243-245 | a contact keeps the old particles first, then appends the createExplosion burst at the enemy's centre in '#ef4444' |
| Collisions.ContactsFrom | components/GameCanvas.tsx:234-248 | the contact loop keeps the bullets, the enemy count and the frame counter; it changes the player only in hit points that never rise, and consumes three random draws per particle it adds |
| Collisions.ContactIsContactPhase | components/GameCanvas.tsx:235-247 | one contact keeps the contact-phase accounting: 20 hit points and one burst per enemy deactivated, bullets and everything else unchanged |
| Collisions.ContactsFromIsContactPhase | components/GameCanvas.tsx:234-248 | the whole enemy-against-player loop keeps the contact-phase accounting: 20 hit points and one burst per enemy deactivated, nothing else changed |
| Collisions.ContactsFromDeactivates | components/GameCanvas.tsx:234-248 | the loop deactivates exactly the enemies that were active and overlapped the player, and leaves every other enemy as it was |
| Frame.Initial | components/GameCanvas.tsx:27-42 | before the first session the player is at x = 400, with 100 hit points and no score, and the state satisfies the between-frames invariant |
| Frame.Fresh | components/GameCanvas.tsx:88-107 | the reset state has the player at (380, 500) with 100 hit points and score 0, no bullets, enemies or particles, and frame counter 0 |
| Frame.Verdict | components/GameCanvas.tsx:254-259 | the session ends exactly when hit points are at most 0, reporting the score and the elapsed milliseconds divided by 1000, rounded down |
| Frame.ArmedFiresOnCadence | components/GameCanvas.tsx:169-181 | auto-fire keeps every bullet already in flight, in order, and appends the shot from the player exactly when the frame is a multiple of 10 |
| Frame.ReinforcedSpawnsOnCadence | components/GameCanvas.tsx:185-188 | spawning keeps every enemy already present, in order, and appends one active enemy built from the first two draws exactly when the frame is a multiple of the score's spawn interval |
| Frame.PrepareCounts | components/GameCanvas.tsx:157-208 | before the collisions: the counter is one higher, the player is the steered one, at most one bullet and one enemy were added on their cadences (an enemy exactly when two draws were used), and only live particles remain |
| Frame.CleanupKeepsActive | components/GameCanvas.tsx:250-252 | cleanup keeps exactly the active bullets and enemies and leaves the player, particles and counter alone |
| Frame.UpdateShape | components/GameCanvas.tsx:156-252 | after a frame the counter is one higher, the player differs from the steered one only in score and hit points, and only active bullets and enemies remain |
| Frame.PrepareSettles | components/GameCanvas.tsx:156-208 | before the collisions: the player differs only in x, which is on the canvas; the frame counter is one higher; every bullet has the fired shape, and an active one is at most 50 units above the canvas; every enemy has its type's shape and hit points left, and an active one is not below the canvas; every particle has life in (0, 1] |
| Frame.UpdateSettled | components/GameCanvas.tsx:156-252 | a frame preserves the between-frames invariant: a 40×40 craft on row 500 inside the canvas, a non-negative score, only active bullets of the fired shape with y ≥ −50 (the cut-off of lines 193 and 251), only active enemies with hit points, their type's shape and y ≤ 600 (the cut-off of lines 199 and 252), and only particles with life in (0, 1] |
| Frame.FrameAccounting | components/GameCanvas.tsx:156-252 | over one frame: the counter rises by 1; the score rises by exactly the points of the enemies bullets destroyed and never falls; hit points fall by exactly 20 per enemy that rammed the player and never rise; the particles are the aged survivors followed by fresh bursts with life 1.0 |
| GameCanvas.Game.constructor | components/GameCanvas.tsx:27-42 | the component starts in the initial state with start time 0 |
| GameCanvas.Game.Reset | components/GameCanvas.tsx:88-107 | the reset leaves the fresh state and records the start time, whatever the state before, so resetting twice gives the same state |
| GameCanvas.Game.PointerMove | components/GameCanvas.tsx:50-65 | a pointer move sets only x, to the clamped pointer position, and keeps the invariant |
| GameCanvas.Game.SteerPlayer | components/GameCanvas.tsx:161-166 | keyboard steering in place yields the steered player |
| GameCanvas.Game.AutoFire | components/GameCanvas.tsx:168-181 | the shot is appended exactly when the frame counter is a multiple of 10 and the list is otherwise unchanged |
| GameCanvas.Game.SpawnEnemy | components/GameCanvas.tsx:119-141 | appends exactly one enemy built from two random draws, and leaves the other enemies unchanged |
| GameCanvas.Game.CreateExplosion | components/GameCanvas.tsx:143-154 | appends exactly the 8-particle burst, using 24 random draws |
| GameCanvas.Game.MoveBullets | components/GameCanvas.tsx:190-194 | the in-place loop leaves the moved bullet list |
| GameCanvas.Game.MoveEnemies | components/GameCanvas.tsx:196-200 | the in-place loop leaves the moved enemy list |
| GameCanvas.Game.AgeParticles | components/GameCanvas.tsx:202-207 | the in-place loop leaves the aged particle list |
| GameCanvas.Game.HitPair | components/GameCanvas.tsx:215-230 | the in-place body of the inner collision loop has exactly the effect of one hit |
| GameCanvas.Game.SweepEnemies | components/GameCanvas.tsx:214-231 | the inner loop has exactly the effect of the one-bullet sweep |
| GameCanvas.Game.ResolveBulletHits | components/GameCanvas.tsx:212-232 | the outer loop has exactly the effect of the bullet phase, skipping spent bullets |
| GameCanvas.Game.ContactPair | components/GameCanvas.tsx:236-247 | the in-place body of the contact loop has exactly the effect of one contact |
| GameCanvas.Game.ResolveContacts | components/GameCanvas.tsx:234-248 | the contact loop has exactly the effect of the contact phase |
| GameCanvas.Game.ReadyFrame | components/GameCanvas.tsx:157-188 | counts the frame, then steers, fires on multiples of 10, and spawns one enemy exactly when the counter is a multiple of the score's spawn interval |
| GameCanvas.Game.PrepareFrame | components/GameCanvas.tsx:156-208 | everything before the collisions has exactly the effect of the preparation phase |
| GameCanvas.Game.Step | components/GameCanvas.tsx:156-259 | one update keeps the invariant and has exactly the effect of a frame; it reports the end of the session, with score and whole seconds, exactly when hit points are at most 0 |
| App.Shell.constructor | App.tsx:9-11 | the application opens on the menu with score 0 and duration 0 recorded |
| App.Shell.StartGame | App.tsx:13-15 | status becomes PLAYING whatever it was; the recorded result is untouched |
| App.Shell.HandleGameOver | App.tsx:17-21 | records the given score and duration and sets status to GAME_OVER |
| App.Shell.RestartGame | App.tsx:23-25 | status becomes PLAYING; the recorded score and duration stay |
| App.Shell.Screen | App.tsx:43-53 | the menu shows exactly in MENU, the result screen exactly in GAME_OVER with the recorded score and duration, and nothing while playing |
| App.Session.constructor | App.tsx:38-41 | a session starts on the menu with a canvas in its initial state |
| App.Session.Enter | components/GameCanvas.tsx:88-107 | starting from the menu or the result screen resets the canvas to the fresh state; if the status was already PLAYING, the canvas is left as it was |
| App.Session.Restart | App.tsx:23-25 | the restart button has the same effect on the canvas as starting |
| App.Session.PointerMove | components/GameCanvas.tsx:50-56 | pointer moves steer the craft only while playing |
| App.Session.Frame | components/GameCanvas.tsx:254-258 | a frame advances the canvas by one update. With no hit points left the shell records the score and the whole seconds elapsed and switches to GAME_OVER, the only way into that status. Otherwise the status and the recorded result stay |

## Left out

- Drawing is not modelled: the starfield, sprites, particle fading, HUD and hit-point bar (components/GameCanvas.tsx:261-346) are presentation.
- The event listeners, their registration and removal, and the `getBoundingClientRect` scaling are not modelled (components/GameCanvas.tsx:45-85). The model keeps:
  - the clamp formula, taking the pointer's logical x as input;
  - the held-key map, taken as a frame input.
- Scheduling by `requestAnimationFrame`, `cancelAnimationFrame` and React's effects is not modelled. A driver calls `Session.Frame` once per frame, only while playing. The reset effect is `Session.Enter`, which runs the reset only when the status changes to PLAYING.
- `Math.random()` and `Date.now()` are parameters. The draw counter fixes the order in which random values are consumed; their distribution is not modelled.
- Floating point is not modelled. Positions and particle life are exact reals, so nothing is claimed about the exact frame on which a particle's life reaches 0 in double arithmetic.
- Object identity is not modelled. Entities are values held in sequences; the code mutates shared objects inside `forEach`. This is only unobservable because each list holds distinct objects and the inner loop reads the same bullet object throughout.
- The missing-canvas and missing-context early returns are not modelled (components/GameCanvas.tsx:51, 59, 116-117).
- The following are outside this model:
  - services/geminiService.ts, a network call to a language-model service;
  - components/MainMenu.tsx, the start overlay with its title and start button; components/GameOver.tsx, the overlay that shows the result and fetches a comment from that service.
- The `hp` field of bullets is carried but never read, as in the code. `BULLET_COLOR` is declared but fired bullets use another colour, as in the code.
