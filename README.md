# Core — a Dafny model of the game loop

This project models the simulation part of Hakim El Hattab's arcade game
*Core*: one `animate` tick without its drawing, together with the start
button, `gameOver`, and the space-key energy penalty. In the game, a player
sits at the centre of the arena with a rotating shield. Enemies and energy
orbs spawn on the arena's edges and drift toward the player. Enemies drain
energy and orbs restore it. A game ends when energy reaches exactly 0.

The model is split into these modules:

- `Geometry` (`geometry.dfy`) covers points and the scalar helpers:
  - `Point.distanceTo`;
  - `Math.round`;
  - the easing step `x += (t - x) * k`;
  - the energy clamp.
  
  `Math.atan2`, `sin`, `cos` and `sqrt` are abstract functions bundled in
  `MathOps`. `Lawful` states the ranges that some lemmas assume.
- `Entities` (`entities.dfy`) covers:
  - the organism, particle and core-node records;
  - the audio trace;
  - the `Enemy` and `Energy` constructors;
  - the `Player` class, with `updateCore` and the easing of the core
    outline.
- `Effects` (`effects.dfy`) covers the particle bursts of `emitParticles`
  and the per-tick particle pass.
- `Rules` (`rules.dfy`) covers the organism loop:
  - movement and fade-in;
  - the three interaction rules;
  - boundary culling;
  - the walk that splices out dead organisms.
  
  `Step` and `Sweep` specify the walk, and lemmas about `Sweep` state what
  it guarantees.
- `Spawning` (`spawning.dfy`) covers `giveLife`.
- `Simulation` (`simulation.dfy`) covers the module state of the game as a
  class `Core`. Its methods change that state in place:
  - the tick (`Animate`) and its parts;
  - the start button;
  - `gameOver`;
  - the key handlers.

`Math.random()` is the stream `rand` together with the cursor `drawn`. The
n-th call returns `rand(n)`, and the calls are taken in the order in which
JavaScript evaluates them. Clock readings and the cursor position are
parameters of the operations. Every `CoreAudio` call becomes an entry in
the trace `cues`.

## Model

| member | source | states |
|---|---|---|
| Geometry.DistanceComparisons | js/core.js:631-635 | with a lawful square root, a distance is non-negative, and comparing it with a non-negative bound is the same as comparing the squared distance with the squared bound |
| Geometry.DistanceSymmetric | js/core.js:631-635 | the distance from p to q equals the distance from q to p |
| Geometry.Round | js/core.js:169 | `Math.round(v)` is an integer within half a unit of v, with halves rounded up |
| Geometry.Ease | js/core.js:386-389 | one easing step leaves `1 - k` of the gap to the target, and for k in [0, 1] the result lies between the start and the target |
| Geometry.Clamp | js/core.js:508 | the clamped energy lies in [lo, hi]; a value inside the range is kept; a value above becomes hi and a value below becomes lo |
| Geometry.DistanceTo | js/core.js:631-635 | definition: the square root of the squared coordinate differences; its meaning is stated by `DistanceComparisons` and `DistanceSymmetric` |
| Entities.NewEnemy | js/core.js:684-690 | an enemy is created live, at rest, with speed 1 and a size in [6, 10) |
| Entities.NewEnergy | js/core.js:693-699 | an orb is created live, with speed 1 and a size in [10, 16) |
| Entities.Jitter | js/core.js:679-680 | both jitter components lie in [0, 5) when the draws lie in [0, 1) |
| Entities.CoreNormal | js/core.js:674-677 | definition: node i gets the cosine and sine of its slot angle (i / 16) · 2 · PI, times the current energy radius; `RefreshedCoreShape` states that every refreshed node carries it |
| Entities.NewNode | js/core.js:659-664 | definition: a node created at the player with zero normal, target and offset; `RefreshedCoreShape` states that an empty outline is rebuilt from such nodes |
| Entities.RefreshedCore | js/core.js:652-682 | the refreshed outline always has `coreQuality` (16) nodes |
| Entities.RefreshedCoreShape | js/core.js:652-682 | after `updateCore` there are exactly 16 nodes. Nodes are created, at the player, only when the list was empty. Positions are otherwise untouched. Every normal is the slot direction times the energy radius. Every offset component lies in [0, 5) |
| Entities.RefreshTwice | js/core.js:670-681 | refreshing a refreshed outline changes only the jitter: it never changes the node count, a position or a normal |
| Entities.EaseNode | js/core.js:415-416 | easing a node keeps its normal, target and offset, and leaves 0.8 of the gap to its target |
| Entities.EasedCore | js/core.js:408-416 | the easing loop keeps the node count |
| Entities.EasedCoreGaps | js/core.js:408-416 | node 0 is visited twice because it is pushed again onto the looped copy, so it keeps 0.64 of its gap; every other node keeps 0.8 |
| Entities.TurnToward | js/core.js:380-386 | the shield angle snaps to the target when the two are more than PI apart; otherwise it keeps 0.8 of the gap; it always ends between the old angle and the target |
| Entities.CoreRadiusTarget | js/core.js:388 | for energy in [0, 100], the target core radius lies in [0, 0.8 * radius] |
| Entities.ShieldPoint | js/core.js:391 | definition: the point `radius` along the facing from the player; `Simulation.Core.Steer` states that the tick sets the shield to it |
| Entities.Player.constructor | js/core.js:640-650 | a new player is at the origin with 30 energy, zero radii and angle, and an empty outline |
| Entities.Player.UpdateCore | js/core.js:652-682 | the loops leave exactly the outline `RefreshedCore` describes for the draws consumed |
| Entities.Player.EaseCore | js/core.js:408-416 | the in-place easing loop over the outline, with node 0 visited again at the end, leaves exactly `EasedCore` of the old outline |
| Effects.Scaled | js/core.js:317-318 | a sine or cosine in [-1, 1], times the spread, lies within the spread |
| Effects.Spark | js/core.js:316-320 | definition: the particle one loop turn makes; `EmitWithinSpread`, `EmitVelocity` and `EmitOpaque` state its position, velocity and alpha |
| Effects.Turns | js/core.js:315 | definition: the number of turns of `while (--q >= 0)`; `TurnsBound` states when the loop makes each turn |
| Effects.TurnsBound | js/core.js:315 | from counter c, `while (--q >= 0)` makes its turn k + 1 (at counter c - k - 1) exactly when k + 1 is at most the turn count, floor(c) for c >= 0 and 0 otherwise |
| Effects.Emit | js/core.js:315-323 | n turns of the loop append n particles |
| Effects.EmitOpaque | js/core.js:320 | every particle the loop appends starts with alpha 1 |
| Effects.EmitNth | js/core.js:315-322 | particle j of the loop is the one made at counter q - j - 1 from draws idx + 2j and idx + 2j + 1 |
| Effects.EmitHead | js/core.js:315-322 | the first turn makes its particle at the decremented counter from the next two draws |
| Effects.EmitTail | js/core.js:315-322 | after the first turn, the loop goes on as the loop from the decremented counter, one turn shorter and two draws later |
| Effects.NthShift | js/core.js:315-322 | turn j + 1 from counter q is turn j from counter q - 1, two draws later |
| Effects.TurnedAppend | js/core.js:315-322 | appending the next turn's particle to the first k turns gives the first k + 1 turns |
| Effects.TurnedIsEmit | js/core.js:315-322 | particles made turn by turn are exactly what `Emit` describes for that many turns |
| Effects.BurstCounter | js/core.js:313 | for a draw in [0, 1) and a positive seed, the starting counter lies in [seed, 2 * seed) |
| Effects.Burst | js/core.js:312-322 | definition: the loop run from the counter `seed + r * seed` with the draws after r; `BurstSize`, `BurstOpaque` and `Simulation.Core.EmitParticles` state what it holds |
| Effects.BurstOpaque | js/core.js:312-324 | every particle of a burst starts with alpha 1 |
| Effects.BurstSize | js/core.js:313-315 | a burst of integer seed s has exactly floor(s + r * s) particles, r being its first draw, so between s and 2s - 1 of them |
| Effects.EmitWithinSpread | js/core.js:317-318 | every particle of a burst starts within the spread of the origin on each axis |
| Effects.EmitVelocity | js/core.js:319 | every particle moves with the bias plus a jitter in [-1, 1) on each axis |
| Effects.Advance | js/core.js:548-552 | a particle tick keeps the velocity and strictly lowers alpha |
| Effects.Fade | js/core.js:544-562 | the particle pass never lengthens the list and keeps every alpha in (0, 1] |
| Effects.Expiring | js/core.js:559-561 | the number of particles that run out on this tick is at most the number of particles |
| Effects.FadeKeepsUnexpired | js/core.js:544-562 | the pass loses no more particles than run out this tick |
| Effects.FadeKeepsVisible | js/core.js:544-562 | a particle still visible after advancing is never lost: it comes out advanced, or unchanged when it is the one skipped after an expired particle |
| Effects.FadeWithoutExpiry | js/core.js:544-562 | when no particle expires, the pass advances each particle exactly once and keeps the order |
| Effects.ParticleAfterExpiredIsSkipped | js/core.js:559-561 | the particle after an expired one comes through the tick unmoved and unfaded, because the splice does not step the index back |
| Effects.FadeKeepStep | js/core.js:548-561 | a visit that keeps its particle advances it in place and moves on |
| Effects.FadeDropStep | js/core.js:559-561 | a visit that splices its particle out still moves the index on |
| Rules.Move | js/core.js:456-459 | motion keeps velocity, size, kind and the dead flag, and alpha in [0, 1] rises toward 1 without passing it |
| Rules.ArcGapRange | js/core.js:472-476 | for angles in [-PI, PI], the folded angular gap lies in [0, PI] |
| Rules.ArcGap | js/core.js:472-476 | definition: the absolute difference of two angles, replaced by 2 · PI minus it when above PI; `ArcGapRange` states its range |
| Rules.InShieldArc | js/core.js:478-479 | definition: the deflection test, a gap below 1.6 to the facing and a distance strictly between radius - 5 and radius + 5; `Interact` and `DeflectionCue` state its effect |
| Rules.ShieldStrikes | js/core.js:487 | definition: the active-kill test, the key held, a distance below the radius and energy above 11; `Interact` states its effect |
| Rules.TouchesCore | js/core.js:492 | definition: the core-contact test, a distance below the core radius plus half the size; `Interact`, `EnemyContact` and `OrbContact` state its effect |
| Rules.Interact | js/core.js:468-511 | only the dead flag of the organism changes. The organism is dead exactly when it already was or any of the three independent rules fired. The score rises by exactly 4 when the active kill fires and by 30 more when an orb reaches the core. Energy stays in [0, 100] and changes only on core contact |
| Rules.EnemyContact | js/core.js:492-511 | an enemy reaching the core dies and costs 6 energy, clamped at 0; it earns only the active-kill score; the energy-down cue plays |
| Rules.OrbContact | js/core.js:487-511 | an orb reaching the core dies, gives 8 energy clamped at 100 and 30 score, plus 4 more when the active kill fires too; the energy-up cue plays |
| Rules.DeflectionCue | js/core.js:478-485 | the deflection cue plays exactly when the organism is in the shield arc on the ring radius ± 5; an organism at radius + 6 is not deflected |
| Rules.Cull | js/core.js:515-517 | an organism outside [-size, width + size] × [-size, height + size] is marked dead; nothing else changes; the flag is never cleared |
| Rules.OutOfBounds | js/core.js:515 | definition: the organism lies outside [-size, width + size] × [-size, height + size]; `Cull` and `SweepInBounds` state its effect |
| Rules.Recoil | js/core.js:521 | definition: the burst bias, 0.02 times the offset from the player; `SweepBursts` states that every removed organism leaves a burst |
| Rules.Fate | js/core.js:454-517 | an organism ends the tick dead exactly when it already was, when its moved position is out of bounds, or, in a game, when one of the three rules fires at its moved position; a live one is exactly its moved self; outside a game energy, score and cues are untouched |
| Rules.Step | js/core.js:454-529 | definition: one turn of the loop, which applies `Fate` and then bursts and drops a dead organism or keeps and counts a live one; `StepCounts` and the `Sweep` lemmas state its effect |
| Rules.Sweep | js/core.js:453-530 | definition: the loop as `Step` applied to each organism in order; `SweepKeepsOrder`, `SweepKeepsOnlyLive`, `SweepCounts` and the other `Sweep` lemmas state what it guarantees |
| Rules.MovedAll | js/core.js:456-459 | definition: every organism moved by one tick, in order; `AliveFatesAreMoved` states that the survivors are among them |
| Rules.CountKindSum | js/core.js:527-528 | the enemy and orb counts of a list add up to its length |
| Rules.SweepKeepsOnlyLive | js/core.js:519-525 | after the loop no dead organism remains |
| Rules.Fates | js/core.js:453-530 | one fate per organism, in order, with the energy and score that each rule produced carried to the next organism as the loop carries them |
| Rules.Alive | js/core.js:519-525 | the live organisms of a list: none of them is dead, every live organism of the list is among them, and there are no more of them than of the list |
| Rules.SweepKeepsOrder | js/core.js:519-529 | the survivors are exactly the organisms whose fate is live, in list order, after the ones kept before: an organism is spliced out if and only if it ends the tick dead |
| Rules.AliveFatesAreMoved | js/core.js:456-459 | every organism whose fate is live is its moved self, unchanged by the rules, and the survivors keep the original order |
| Rules.SweepCounts | js/core.js:527-528 | the two counters equal the numbers of surviving enemies and orbs, and so add up to the survivor count |
| Rules.StepCounts | js/core.js:526-529 | one iteration keeps the counters equal to the survivor counts |
| Rules.SweepEnergyAndScore | js/core.js:487-511 | through the loop, energy stays in [0, 100] and the score never falls |
| Rules.SweepWhileIdle | js/core.js:470 | outside a game, the loop changes neither energy, score nor the audio trace |
| Rules.SweepParticles | js/core.js:520-521 | the loop leaves the existing particles untouched and adds only particles with alpha 1 |
| Rules.SweepBursts | js/core.js:520-521 | every organism removed leaves a burst of at least 5 particles |
| Rules.SweepAlpha | js/core.js:459 | survivors keep an alpha in [0, 1] |
| Rules.SweepInBounds | js/core.js:515-517 | no survivor lies outside the culling box |
| Spawning.EdgeBands | js/core.js:588 | `Math.round(r * 3)` picks the outer edges for a sixth of the draws each and the middle two for a third each |
| Spawning.Edge | js/core.js:588 | definition: `Math.round(r * 3)`; `EdgeBands` states which draws pick which edge |
| Spawning.EdgePoint | js/core.js:590-607 | definition: the point 10 pixels in from the chosen edge, at the fraction r along it, with the position left alone for a side outside 0..3; `SpawnOnEdge` states where a spawned organism starts |
| Spawning.Speed | js/core.js:611 | the speed lies in [0.6, 0.75], and a draw inside that range is the speed itself |
| Spawning.Aim | js/core.js:613-614 | with a positive speed, a velocity component has the sign of the offset to the player |
| Spawning.Boost | js/core.js:616-619 | the enemy boost keeps the sign of each velocity component |
| Spawning.GiveLife | js/core.js:587-624 | a spawned organism keeps kind, size and the dead flag. Its alpha is reset to 0 and its speed lies in [0.6, 0.75]. An enemy consumes five draws and an orb three |
| Spawning.SpawnOnEdge | js/core.js:588-607 | a spawned organism starts inside the arena, 10 pixels in from one edge |
| Spawning.SpawnAimedAtPlayer | js/core.js:611-619 | a spawned organism heads for the player on both axes; an orb's velocity is the offset times 0.006 times its speed, with no boost |
| Simulation.FrameRate | js/core.js:341 | the measured frame rate lies in [0, 60] |
| Simulation.Level | js/core.js:350 | the pre-squared score factor lies in [0.01, 1] |
| Simulation.ScoreFactor | js/core.js:350-353 | definition: the level squared; `ScoreFactorBounds` states its range and that it rises with the frame rate |
| Simulation.Gain | js/core.js:370-376 | the per-tick score gain `(0.4 * difficulty) * scoreFactor` is positive when difficulty and score factor are |
| Simulation.SquareMonotone | js/core.js:353 | squaring a pre-squared factor in [0.01, 1] keeps it in [0.0001, 1] and keeps the order |
| Simulation.ScoreFactorBounds | js/core.js:350-353 | the score factor lies in [0.0001, 1] and never falls as the frame rate rises |
| Simulation.Core.constructor | js/core.js:41-72 | the module's initial state: no game, empty lists, score 0, difficulty 1, and the player centred with 30 energy |
| Simulation.Core.Draw | js/core.js:313 | `Math.random()` returns the draw at the cursor and moves the cursor on by one |
| Simulation.Core.EmitParticles | js/core.js:312-324 | `emitParticles` appends exactly the burst its draws determine and leaves the earlier particles untouched; it consumes one draw plus two per particle |
| Simulation.Core.AddSpark | js/core.js:316-322 | one loop turn appends the particle made from the next two draws |
| Simulation.Core.EmitFrom | js/core.js:315-323 | the `while (--q >= 0)` loop appends `Emit` of its starting counter, two draws per particle; its invariant is that the particles made so far are the first turns as `Nth` describes them |
| Simulation.Core.UpdateFrameRate | js/core.js:333-347 | after more than a second, fps is re-measured, the extremes are tracked and the window is reset; otherwise only the frame count rises |
| Simulation.Core.AdvanceSession | js/core.js:364-432 | outside a game nothing changes. In a game, difficulty rises by exactly 0.0015, and score and its statistic rise by `0.4 * difficulty * scoreFactor`. The angle turns toward the cursor as `TurnToward` describes. The core radius eases toward the energy fraction of 0.8 times the radius. The shield point follows the new angle. The outline becomes the eased refresh of the old one, with 16 nodes, using 32 draws |
| Simulation.Core.AdvanceScore | js/core.js:366-376 | difficulty rises by 0.0015, then score and its statistic by `0.4 * difficulty * scoreFactor` |
| Simulation.Core.Steer | js/core.js:380-391 | the angle turns toward the cursor, the core radius eases toward its energy-proportional target, and the shield point follows the angle |
| Simulation.Core.RebuildCore | js/core.js:406-426 | the outline becomes the eased refresh of the old one, using 32 draws |
| Simulation.Core.DrainShield | js/core.js:434-447 | with the key held and energy above 10, energy falls by 0.1 and the shield cue plays, in a game or not; otherwise nothing changes |
| Simulation.Core.UpdateOrganisms | js/core.js:449-530 | after the organism loop no organism is dead, particles stay visible, the counters match the survivors and add up to their number, energy stays in [0, 100], the score does not fall, and outside a game energy, score and cues are untouched |
| Simulation.Core.SweepOrganisms | js/core.js:453-530 | the in-place splicing loop leaves exactly the state `Sweep` describes |
| Simulation.Core.VisitOrganism | js/core.js:454-529 | one loop turn performs one `Step`: a dead organism bursts and is spliced out, and a live one is written back and counted |
| Simulation.Core.SpawnEnemy | js/core.js:533-536 | with fewer enemies than the difficulty and more than 100 ms since the last spawn, one new enemy from `giveLife` is appended and the time recorded; otherwise nothing changes |
| Simulation.Core.SpawnEnergy | js/core.js:539-541 | with no orb, one draw is made and, when it exceeds 0.996, a new orb is appended; with an orb, nothing is drawn |
| Simulation.Core.UpdateParticles | js/core.js:544-562 | the in-place particle loop leaves exactly `Fade` of the old list, and every particle stays visible |
| Simulation.Core.GameOver | js/core.js:159-178 | the session stops, the duration is recorded, and the score is rounded to an integer within half a point |
| Simulation.Core.EndIfDrained | js/core.js:565-578 | only in a game with energy exactly 0: a seed-40, spread-10 burst at the player, game over and the game-over cue; otherwise nothing changes; the invariant is kept |
| Simulation.Core.Animate | js/core.js:330-582 | one tick keeps the invariant: energy in [0, 100], difficulty ≥ 1, fps in [0, 60], the outline empty or complete, no dead organism, visible particles. Difficulty rises by 0.0015 exactly when a game is on. Outside a game only the shield drain touches energy, and the score, statistics, angle, radii, shield and outline keep their values. A tick that continues a game raises the score. The game continues exactly when energy is not 0. At game over the score is an integer and the last cue is the game-over sound |
| Simulation.Core.TickPlayer | js/core.js:333-432 | the frame-rate part and the session part of the tick keep the invariant. The frame-rate fields are updated exactly as `UpdateFrameRate` states. In a game, the score and statistics rise by the gain at the measured frame rate, and the angle, radii, shield and outline take exactly the values `AdvanceSession` states, using 32 draws. Outside a game all of those stay as they were |
| Simulation.Core.TickWorld | js/core.js:434-562 | the shield drain, organism, spawn and particle part of the tick keeps the invariant, and the score does not fall. Outside a game the score stays and energy changes only by the drain: 0.1 less when the key is held and energy is above 10 |
| Simulation.Core.Start | js/core.js:129-153 | during a game the start button changes nothing. Otherwise a game begins with no organisms, score 0, difficulty 1, the statistics cleared, energy 30 and the start time recorded |
| Simulation.Core.KeyDown | js/core.js:180-190 | the space bar costs 4 energy when it was not already held and energy is above 15, in a game or not; it then counts as held; other keys do nothing |
| Simulation.Core.KeyUp | js/core.js:191-198 | releasing the space bar ends the hold; other keys do nothing |

The model follows the code as written, including these details:

- The three interaction rules are independent tests. They are not
  first-match-wins, so an orb that is killed by the shield and also reaches
  the core scores both 4 and 30.
- Alpha eases by 0.1 a tick, not by 0.2.
- The culling box is [-size, width + size] × [-size, height + size].
- The active shield kill needs energy strictly above 11, so it does not
  fire at exactly 11.
- The burst size is the floor of `seed + r * seed`, not its ceiling, so it
  is at most 2s - 1.
- The burst's sine and cosine are taken at the real-valued decremented
  counter, not at an integer index.
- The spawn edge is chosen with `Math.round`, which is not uniform.
- The shield drain and the space-key penalty change energy outside a game
  too.
- The particle splice skips the following particle, while the organism
  splice steps back and skips none.

## Left out

- `CoreAudio` (js/core-audio.js) is not part of this model. Each call is an
  entry of the `cues` trace and nothing more.
- Drawing is left out: every canvas call, the background and the
  quadratic-curve outline. The DOM updates are left out as well: status
  text, panels and the title. These are presentation only.
- `init`, the mouse and touch handlers, and the resize handler are left
  out. The world is fixed at the desktop size of 1000 × 650, and the mobile
  sizing is left out. The player is centred once, as the first resize does.
  The cursor is a parameter of `Animate`.
- The `requestAnimFrame` scheduling is left out. The model runs a single
  tick per call.
- Numbers are exact reals, not IEEE doubles. `Math.round` is modelled
  exactly.
- `Math.atan2`, `sin`, `cos` and `sqrt` are abstract. Only the ranges in
  `Lawful` are assumed, and only where a lemma says so.
- Each operation reads the clock once. `gameOver` and the enemy spawn gate
  read `new Date()` twice in the code, and the model gives both reads the
  same value.
- Effects.Scaled and Simulation.Core.EmitParticles: the spread is one of the
  two values the game uses, 5 and 10. Bursts with any other spread are not
  modelled.
- Spawning.GiveLife: the position draw is counted even for an edge outside
  0..3, which `Math.round(r * 3)` never yields for r in [0, 1).
- `Point.clonePosition`, `player.length`, the world velocity, `mouseIsDown`
  and `BORDER_WIDTH` are never used by the modelled code.
- Simulation.Core.UpdateOrganisms: states the invariant, the counters and
  the score and energy bounds, but not the new organism, particle, draw and
  cue values. `SweepOrganisms` states those exactly, as one `Sweep` of the
  old state. Restating that in the callers makes their proofs exceed the
  verifier's resource limit.
- Simulation.Core.TickWorld: states the invariant, the score bound and the
  state outside a game, but not the organism and particle lists or the spawn
  results, for the same reason. `SweepOrganisms`, `SpawnEnemy`, `SpawnEnergy`
  and `UpdateParticles` state them exactly.
- Simulation.Core.Animate: does not restate the frame-rate fields that
  `TickPlayer` states exactly. During a game it also does not restate the
  statistics, the angle, the radii, the shield and the outline. It does not
  restate the organism and particle lists either. Carrying these across the
  later calls exceeds the verifier's resource limit.
