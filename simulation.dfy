/** The game: the state the `Core` singleton keeps and the operations that
    change it, namely one animation tick, the start button, game over and
    the shield key. */
module Simulation {
  import opened Geometry
  import opened Entities
  import opened Effects
  import opened Rules
  import opened Spawning

  /** The frame rate the game targets and caps its measurement at. */
  const FRAMERATE: int := 60

  /** The frame rate measured once more than a second has passed:
      `Math.min(Math.round(frames * 1000 / elapsed), FRAMERATE)`. It is never
      above the cap and, for a positive elapsed time, never negative. */
  function FrameRate(frames: nat, elapsed: int): (fps: int)
    requires elapsed > 0
    ensures 0 <= fps <= FRAMERATE
  {
    var rate := (frames * 1000) as real / elapsed as real;
    assert rate >= 0.0;
    MinInt(Round(rate), FRAMERATE)
  }

  /** The frame-rate level of a tick: `0.01 + clamp(fps, 0, 60) / 60 * 0.99`,
      in [0.01, 1] and rising with the frame rate. */
  function Level(fps: int): (f: real)
    ensures 0.01 <= f <= 1.0
  {
    0.01 + (MaxInt(MinInt(fps, FRAMERATE), 0) as real / FRAMERATE as real * 0.99)
  }

  /** The score factor of a tick: the level squared. */
  function ScoreFactor(fps: int): real
  {
    Level(fps) * Level(fps)
  }

  /** The score a playing tick earns: `(0.4 * difficulty) * scoreFactor`,
      positive when both are. */
  function Gain(difficulty: real, scoreFactor: real): (g: real)
    ensures difficulty > 0.0 && scoreFactor > 0.0 ==> g > 0.0
  {
    var g := (0.4 * difficulty) * scoreFactor;
    if difficulty > 0.0 && scoreFactor > 0.0 then
      ProductSign(0.4 * difficulty, scoreFactor);
      g
    else g
  }

  /** The score factor lies in [0.0001, 1] for every frame rate and never
      falls as the frame rate rises. */
  lemma ScoreFactorBounds(fps: int, fps2: int)
    ensures 0.0001 <= ScoreFactor(fps) <= 1.0
    ensures fps <= fps2 ==> ScoreFactor(fps) <= ScoreFactor(fps2)
  {
    var f, g := Level(fps), Level(fps2);
    SquareMonotone(f, f);
    if fps <= fps2 {
      assert f <= g;
      SquareMonotone(f, g);
    }
  }

  /** Squaring is monotone on [0.01, 1] and stays within [0.0001, 1]. */
  lemma SquareMonotone(x: real, y: real)
    requires 0.01 <= x <= y <= 1.0
    ensures 0.0001 <= x * x
    ensures x * x <= y * y
    ensures y * y <= 1.0
  {
    SquaresOrdered(0.01, x);
    SquaresOrdered(x, y);
    SquaresOrdered(y, 1.0);
  }

  /** The `Core` singleton: world, player, organisms, particles, session
      and frame-rate bookkeeping, plus the random stream and the audio trace
      that stand in for `Math.random()` and `CoreAudio`. */
  class Core {
    const width: real := 1000.0
    const height: real := 650.0
    const m: MathOps
    /** `Math.random()` returns `rand(drawn)` and advances `drawn`. */
    const rand: nat -> real
    var drawn: nat
    const player: Player
    var organisms: seq<Organism>
    var particles: seq<Particle>
    var spaceIsDown: bool
    var playing: bool
    var score: real
    var time: int
    var duration: int
    var difficulty: real
    var lastspawn: int
    var fc: nat
    var fs: real
    var ms: int
    var cs: int
    var fps: int
    var fpsMin: int
    var fpsMax: int
    var timeLastSecond: int
    var frames: nat
    var cues: seq<Cue>

    /** What every operation keeps: energy in [0, 100], difficulty at least
        1, the measured frame rate in [0, 60], the core outline empty or
        complete, no dead organism left in the list and every organism's
        alpha in [0, 1], and every particle still visible. */
    ghost predicate Valid()
      reads this`difficulty, this`fps, this`organisms, this`particles, player`energy, player`coreNodes
    {
      0.0 <= player.energy <= 100.0 && difficulty >= 1.0 && 0 <= fps <= FRAMERATE &&
      player.CoreShaped() && OrganismsLive() && ParticlesVisible()
    }

    /** No organism in the list is dead and every alpha is in [0, 1]. */
    ghost predicate OrganismsLive()
      reads this`organisms
    {
      forall o <- organisms :: !o.dead && 0.0 <= o.alpha <= 1.0
    }

    /** Every particle in the list is still visible. */
    ghost predicate ParticlesVisible()
      reads this`particles
    {
      forall p <- particles :: 0.0 < p.alpha <= 1.0
    }

    /** The module's initial state, with the player created and centred as
        `init` and the first resize do it. */
    constructor (now: int, m: MathOps, rand: nat -> real)
      ensures Valid() && fresh(player)
      ensures !playing && !spaceIsDown && organisms == [] && particles == [] && cues == []
      ensures score == 0.0 && difficulty == 1.0 && lastspawn == 0 && drawn == 0
      ensures player.position == Vec(width * 0.5, height * 0.5) && player.energy == 30.0
      ensures fps == 0 && frames == 0 && timeLastSecond == now
    {
      this.m := m;
      this.rand := rand;
      var p := new Player();
      p.position := Vec(1000.0 * 0.5, 650.0 * 0.5);
      player := p;
      drawn := 0;
      organisms := [];
      particles := [];
      spaceIsDown := false;
      playing := false;
      score := 0.0;
      time := 0;
      duration := 0;
      difficulty := 1.0;
      lastspawn := 0;
      fc, fs, ms, cs := 0, 0.0, 0, 0;
      fps, fpsMin, fpsMax := 0, 1000, 0;
      timeLastSecond := now;
      frames := 0;
      cues := [];
    }

    /** What the organism pass reads from the state. */
    function PassEnv(): Env
      reads this`playing, this`spaceIsDown, player`position, player`angle, player`energyRadius
    {
      Env(playing, spaceIsDown, player.position, player.angle, player.radius,
          player.energyRadius, width, height, m, rand)
    }

    /** `Math.random()`. */
    method Draw() returns (r: real)
      modifies this`drawn
      ensures r == rand(old(drawn)) && drawn == old(drawn) + 1
    {
      r := rand(drawn);
      drawn := drawn + 1;
    }

    /** `emitParticles`: appends the burst, leaving the particles already in
        the list as they were. */
    method EmitParticles(position: Vec, direction: Vec, spread: Spread, seed: real)
      modifies this`particles, this`drawn
      ensures particles == old(particles) + Burst(position, direction, spread, seed, m, rand, old(drawn))
      ensures drawn == old(drawn) + BurstDraws(position, direction, spread, seed, m, rand, old(drawn))
    {
      var r := Draw();
      var q := BurstCounter(seed, r);
      EmitFrom(position, direction, spread, q);
    }

    /** The body of the emission loop: one particle at counter `q`, with
        two draws for its velocity jitter. */
    method AddSpark(position: Vec, direction: Vec, spread: Spread, q: real)
      modifies this`particles, this`drawn
      ensures particles == old(particles) + [Spark(position, direction, spread, q, m,
                                                    rand(old(drawn)), rand(old(drawn) + 1))]
      ensures drawn == old(drawn) + 2
    {
      var vx := Draw();
      var vy := Draw();
      particles := particles + [Spark(position, direction, spread, q, m, vx, vy)];
    }

    /** The loop `while (--q >= 0)` of `emitParticles`, from the starting
        counter: it appends the particles `Emit` describes, drawing twice
        for each. */
    method EmitFrom(position: Vec, direction: Vec, spread: Spread, counter: real)
      modifies this`particles, this`drawn
      ensures particles == old(particles) + Emit(position, direction, spread, counter, Turns(counter),
                                                 m, rand, old(drawn))
      ensures drawn == old(drawn) + 2 * (|particles| - |old(particles)|)
    {
      ghost var made: seq<Particle> := [];
      var q := counter - 1.0;
      while q >= 0.0
        invariant q == counter - (|made| + 1) as real && |made| <= Turns(counter)
        invariant particles == old(particles) + made && drawn == old(drawn) + 2 * |made|
        invariant Turned(made, position, direction, spread, counter, m, rand, old(drawn))
        decreases Turns(counter) - |made|
      {
        TurnsBound(counter, |made|);
        ghost var spark := Nth(position, direction, spread, counter, m, rand, old(drawn), |made|);
        assert spark == Spark(position, direction, spread, q, m, rand(drawn), rand(drawn + 1));
        AddSpark(position, direction, spread, q);
        assert particles == old(particles) + (made + [spark]);
        TurnedAppend(made, spark, position, direction, spread, counter, m, rand, old(drawn));
        made := made + [spark];
        q := q - 1.0;
      }
      TurnsBound(counter, |made|);
      TurnedIsEmit(made, position, direction, spread, counter, m, rand, old(drawn));
    }

    /** The frame-rate bookkeeping at the top of `animate`. */
    method UpdateFrameRate(now: int)
      modifies this`frames, this`fps, this`fpsMin, this`fpsMax, this`timeLastSecond
      ensures now > old(timeLastSecond) + 1000 ==>
        fps == FrameRate(old(frames) + 1, now - old(timeLastSecond)) &&
        fpsMin == MinInt(old(fpsMin), fps) && fpsMax == MaxInt(old(fpsMax), fps) &&
        timeLastSecond == now && frames == 0
      ensures now <= old(timeLastSecond) + 1000 ==>
        frames == old(frames) + 1 && fps == old(fps) && fpsMin == old(fpsMin) &&
        fpsMax == old(fpsMax) && timeLastSecond == old(timeLastSecond)
    {
      frames := frames + 1;
      if now > timeLastSecond + 1000 {
        fps := MinInt(Round((frames * 1000) as real / (now - timeLastSecond) as real), FRAMERATE);
        fpsMin := MinInt(fpsMin, fps);
        fpsMax := MaxInt(fpsMax, fps);
        timeLastSecond := now;
        frames := 0;
      }
    }

    /** The `if (playing)` block of `animate`: difficulty and score advance,
        the shield turns toward the cursor, the core radius eases toward the
        energy fraction, the outline is refreshed and eased. Outside a game
        nothing changes. */
    method AdvanceSession(scoreFactor: real, mouseX: real, mouseY: real)
      requires player.CoreShaped()
      modifies this`difficulty, this`score, this`fc, this`fs, this`drawn,
               player`angle, player`energyRadiusTarget, player`energyRadius,
               player`shield, player`coreNodes
      ensures !playing ==>
        difficulty == old(difficulty) && score == old(score) && fc == old(fc) &&
        fs == old(fs) && drawn == old(drawn) && unchanged(player)
      ensures playing ==>
        difficulty == old(difficulty) + 0.0015 &&
        score == old(score) + Gain(difficulty, scoreFactor) &&
        fc == old(fc) + 1 && fs == old(fs) + Gain(difficulty, scoreFactor) &&
        |player.coreNodes| == CoreQuality && drawn == old(drawn) + 2 * CoreQuality
      ensures playing ==>
        player.angle == TurnToward(old(player.angle),
                          m.atan2(mouseY - player.position.y, mouseX - player.position.x)) &&
        player.energyRadiusTarget == CoreRadiusTarget(player.energy, player.radius) &&
        player.energyRadius == Ease(old(player.energyRadius), player.energyRadiusTarget, 0.2) &&
        player.shield == ShieldPoint(player.position, player.angle, player.radius, m) &&
        player.coreNodes == EasedCore(RefreshedCore(old(player.coreNodes), player.position,
                                        player.energyRadius, m, rand, old(drawn)), player.position)
    {
      if playing {
        AdvanceScore(scoreFactor);
        Steer(mouseX, mouseY);
        RebuildCore();
      }
    }

    /** Difficulty rises by 0.0015 and the score and its statistic by
        `Gain(difficulty, scoreFactor)`, with the raised difficulty. */
    method AdvanceScore(scoreFactor: real)
      modifies this`difficulty, this`score, this`fc, this`fs
      ensures difficulty == old(difficulty) + 0.0015
      ensures score == old(score) + Gain(difficulty, scoreFactor)
      ensures fc == old(fc) + 1 && fs == old(fs) + Gain(difficulty, scoreFactor)
    {
      difficulty := difficulty + 0.0015;
      score := score + Gain(difficulty, scoreFactor);
      fc := fc + 1;
      fs := fs + Gain(difficulty, scoreFactor);
    }

    /** The shield turns toward the pointer, the core radius eases toward
        its energy-proportional target, and the shield point follows the new
        angle. */
    method Steer(mouseX: real, mouseY: real)
      modifies player`angle, player`energyRadiusTarget, player`energyRadius, player`shield
      ensures player.angle == TurnToward(old(player.angle),
                                m.atan2(mouseY - player.position.y, mouseX - player.position.x))
      ensures player.energyRadiusTarget == CoreRadiusTarget(player.energy, player.radius)
      ensures player.energyRadius == Ease(old(player.energyRadius), player.energyRadiusTarget, 0.2)
      ensures player.shield == ShieldPoint(player.position, player.angle, player.radius, m)
    {
      var targetAngle := m.atan2(mouseY - player.position.y, mouseX - player.position.x);
      player.angle := TurnToward(player.angle, targetAngle);
      player.energyRadiusTarget := CoreRadiusTarget(player.energy, player.radius);
      player.energyRadius := Ease(player.energyRadius, player.energyRadiusTarget, 0.2);
      player.shield := ShieldPoint(player.position, player.angle, player.radius, m);
    }

    /** `player.updateCore()` with the next 32 draws, then the easing pass
        over the outline. */
    method RebuildCore()
      requires player.CoreShaped()
      modifies this`drawn, player`coreNodes
      ensures player.coreNodes == EasedCore(RefreshedCore(old(player.coreNodes), player.position,
                                              player.energyRadius, m, rand, old(drawn)), player.position)
      ensures drawn == old(drawn) + 2 * CoreQuality
    {
      player.UpdateCore(m, rand, drawn);
      drawn := drawn + 2 * CoreQuality;
      player.EaseCore();
    }

    /** The shield drain: while the key is held and energy is above 10,
        energy falls by 0.1 and the shield sound plays, in a game or not. */
    method DrainShield()
      modifies player`energy, this`cues
      ensures spaceIsDown && old(player.energy) > 10.0 ==>
        player.energy == old(player.energy) - 0.1 && cues == old(cues) + [PlayShield]
      ensures !(spaceIsDown && old(player.energy) > 10.0) ==>
        player.energy == old(player.energy) && cues == old(cues)
    {
      if spaceIsDown && player.energy > 10.0 {
        player.energy := player.energy - 0.1;
        cues := cues + [PlayShield];
      }
    }

    /** The organism pass of `animate` and what it guarantees: afterwards no
        dead organism remains, every particle is visible, the counters hold
        the numbers of surviving enemies and orbs, energy is in [0, 100], the
        score has not fallen, and outside a game energy, score and the audio
        trace are untouched. */
    method UpdateOrganisms() returns (enemyCount: nat, energyCount: nat)
      requires OrganismsLive() && ParticlesVisible() && 0.0 <= player.energy <= 100.0
      modifies this`organisms, this`particles, this`drawn, this`score, this`cues, player`energy
      ensures OrganismsLive() && ParticlesVisible() && 0.0 <= player.energy <= 100.0
      ensures enemyCount == CountKind(Enemy, organisms) && energyCount == CountKind(EnergyOrb, organisms)
      ensures enemyCount + energyCount == |organisms|
      ensures score >= old(score)
      ensures !playing ==> player.energy == old(player.energy) && score == old(score) && cues == old(cues)
    {
      var env := PassEnv();
      ghost var orgs := organisms;
      ghost var t0 := StartTally(player.energy, score, particles, drawn, cues);
      enemyCount, energyCount := SweepOrganisms();
      SweepKeepsOnlyLive(env, orgs, t0);
      SweepAlpha(env, orgs, t0);
      SweepCounts(env, orgs, t0);
      SweepEnergyAndScore(env, orgs, t0);
      SweepParticles(env, orgs, t0);
      if !playing {
        SweepWhileIdle(env, orgs, t0);
      }
    }

    /** The organism loop of `animate`, splicing out dead organisms in place:
        its effect on the state is the `Sweep` of the list. */
    method SweepOrganisms() returns (enemyCount: nat, energyCount: nat)
      modifies this`organisms, this`particles, this`drawn, this`score, this`cues, player`energy
      ensures var t := Sweep(PassEnv(), old(organisms),
                             StartTally(old(player.energy), old(score), old(particles), old(drawn), old(cues)));
        organisms == t.survivors && player.energy == t.energy && score == t.score &&
        particles == t.particles && drawn == t.drawn && cues == t.cues &&
        enemyCount == t.enemyCount && energyCount == t.energyCount
    {
      var env := PassEnv();
      ghost var orgs := organisms;
      ghost var t0 := StartTally(player.energy, score, particles, drawn, cues);
      enemyCount, energyCount := 0, 0;
      var i := 0;
      assert organisms[i..] == orgs && organisms[..i] == [];
      while i < |organisms|
        invariant env == PassEnv()
        invariant 0 <= i <= |organisms|
        invariant Sweep(env, organisms[i..], Tally(organisms[..i], player.energy, score, particles,
                                                   drawn, cues, enemyCount, energyCount))
                  == Sweep(env, orgs, t0)
        decreases |organisms| - i
      {
        ghost var ahead := organisms[i..];
        assert ahead[0] == organisms[i] && ahead[1..] == organisms[i + 1..];
        var kept;
        kept, enemyCount, energyCount := VisitOrganism(env, i, enemyCount, energyCount);
        if kept {
          i := i + 1;
        }
      }
      assert organisms[..i] == organisms;
    }

    /** One turn of the organism loop on the organism at index `i`: it moves,
        meets the rules when a game is on and is culled; a dead one bursts and
        is spliced out, a live one is written back and counted. The outcome is
        one `Step` of the sweep. */
    method VisitOrganism(env: Env, i: nat, enemyCount: nat, energyCount: nat)
      returns (kept: bool, enemyCount': nat, energyCount': nat)
      requires i < |organisms| && env == PassEnv()
      modifies this`organisms, this`particles, this`drawn, this`score, this`cues, player`energy
      ensures var j := if kept then i + 1 else i;
        j <= |organisms| && organisms[j..] == old(organisms)[i + 1..] &&
        Step(env, old(organisms)[i], Tally(old(organisms)[..i], old(player.energy), old(score),
                                            old(particles), old(drawn), old(cues), enemyCount, energyCount))
        == Tally(organisms[..j], player.energy, score, particles, drawn, cues, enemyCount', energyCount')
    {
      var p := Move(organisms[i]);
      if playing {
        var c := Interact(env, p, player.energy, score);
        p := c.organism;
        player.energy := c.energy;
        score := c.score;
        cues := cues + c.cues;
      }
      p := Cull(env, p);
      enemyCount', energyCount' := enemyCount, energyCount;
      if p.dead {
        EmitParticles(p.position, Recoil(env, p), Narrow, 5.0);
        organisms := organisms[..i] + organisms[i + 1..];
        kept := false;
      } else {
        organisms := organisms[i := p];
        if p.kind == Enemy {
          enemyCount' := enemyCount' + 1;
        }
        if p.kind == EnergyOrb {
          energyCount' := energyCount' + 1;
        }
        assert organisms[..i + 1] == old(organisms)[..i] + [p];
        kept := true;
      }
    }

    /** The enemy spawn gate: fewer live enemies than the difficulty and more
        than 100 ms since the last enemy spawn. */
    method SpawnEnemy(now: int, enemyCount: nat)
      requires OrganismsLive()
      modifies this`organisms, this`drawn, this`lastspawn, this`cues
      ensures OrganismsLive()
      ensures var gate := (enemyCount as real) < 1.0 * difficulty && now - old(lastspawn) > 100;
        var s := GiveLife(NewEnemy(rand(old(drawn))), width, height, player.position, rand, old(drawn) + 1);
        (gate ==>
           organisms == old(organisms) + [s.organism] && drawn == s.drawn && lastspawn == now &&
           cues == old(cues) + (if playing then [PlaySynth(s.organism.position.x / width)] else [])) &&
        (!gate ==>
           organisms == old(organisms) && drawn == old(drawn) && lastspawn == old(lastspawn) &&
           cues == old(cues))
    {
      if (enemyCount as real) < 1.0 * difficulty && now - lastspawn > 100 {
        var r := Draw();
        var s := GiveLife(NewEnemy(r), width, height, player.position, rand, drawn);
        if playing {
          cues := cues + [PlaySynth(s.organism.position.x / width)];
        }
        drawn := s.drawn;
        organisms := organisms + [s.organism];
        lastspawn := now;
      }
    }

    /** The energy-orb spawn gate: no live orb, and then a draw above 0.996
        (the draw is made only when there is no orb). */
    method SpawnEnergy(energyCount: nat)
      requires OrganismsLive()
      modifies this`organisms, this`drawn, this`cues
      ensures OrganismsLive()
      ensures energyCount >= 1 ==>
        organisms == old(organisms) && drawn == old(drawn) && cues == old(cues)
      ensures energyCount < 1 && rand(old(drawn)) <= 0.996 ==>
        organisms == old(organisms) && drawn == old(drawn) + 1 && cues == old(cues)
      ensures energyCount < 1 && rand(old(drawn)) > 0.996 ==>
        var s := GiveLife(NewEnergy(rand(old(drawn) + 1)), width, height, player.position, rand, old(drawn) + 2);
        organisms == old(organisms) + [s.organism] && drawn == s.drawn &&
        cues == old(cues) + (if playing then [PlaySynth(s.organism.position.x / width)] else [])
    {
      if energyCount < 1 {
        var chance := Draw();
        if chance > 0.996 {
          var r := Draw();
          var s := GiveLife(NewEnergy(r), width, height, player.position, rand, drawn);
          if playing {
            cues := cues + [PlaySynth(s.organism.position.x / width)];
          }
          drawn := s.drawn;
          organisms := organisms + [s.organism];
        }
      }
    }

    /** The particle loop of `animate`, splicing in place without stepping
        the index back. */
    method UpdateParticles()
      requires ParticlesVisible()
      modifies this`particles
      ensures particles == Fade(old(particles))
      ensures ParticlesVisible()
    {
      var i := 0;
      assert particles[..0] == [] && particles[0..] == particles;
      while i < |particles|
        invariant 0 <= i <= |particles| + 1
        invariant FadeFrom(particles, i) == Fade(old(particles))
        decreases |particles| + 1 - i
      {
        var p := Advance(particles[i]);
        if p.alpha <= 0.0 {
          FadeDropStep(particles, i);
          particles := particles[..i] + particles[i + 1..];
        } else {
          FadeKeepStep(particles, i);
          particles := particles[i := p];
        }
        i := i + 1;
      }
      assert particles[..|particles|] == particles;
    }

    /** `gameOver`: the session stops, its duration is recorded and the
        score is rounded to the nearest integer. */
    method GameOver(now: int)
      modifies this`playing, this`duration, this`score
      ensures !playing && duration == now - time && score == Round(old(score)) as real
      ensures score == score.Floor as real && old(score) - 0.5 < score <= old(score) + 0.5
    {
      playing := false;
      duration := now - time;
      score := Round(score) as real;
    }

    /** The end-of-tick check: when a game is on and energy is exactly 0, a
        burst of seed 40 and spread 10 is emitted at the player, the game
        ends and the game-over sound plays; otherwise nothing changes. */
    method EndIfDrained(now: int)
      requires Valid()
      modifies this`particles, this`drawn, this`playing, this`duration, this`score, this`cues
      ensures Valid()
      ensures old(playing) && player.energy == 0.0 ==>
        !playing &&
        particles == old(particles) + Burst(player.position, Vec(0.0, 0.0), Wide, 40.0, m, rand, old(drawn)) &&
        drawn == old(drawn) + BurstDraws(player.position, Vec(0.0, 0.0), Wide, 40.0, m, rand, old(drawn)) &&
        score == Round(old(score)) as real && duration == now - time &&
        cues == old(cues) + [PlayGameOver]
      ensures !(old(playing) && player.energy == 0.0) ==>
        playing == old(playing) && particles == old(particles) && drawn == old(drawn) &&
        score == old(score) && duration == old(duration) && cues == old(cues)
    {
      if playing {
        if player.energy == 0.0 {
          BurstOpaque(player.position, Vec(0.0, 0.0), Wide, 40.0, m, rand, drawn);
          EmitParticles(player.position, Vec(0.0, 0.0), Wide, 40.0);
          GameOver(now);
          cues := cues + [PlayGameOver];
        }
      }
    }

    /** `animate` without its drawing: one tick of the whole game, made of
        the player phase, the world phase and the end-of-game check. The
        invariant is kept; difficulty rises only in a game; outside a game the
        session stays over, the score, statistics, facing, radii, shield and
        outline keep their values and only the shield drain moves energy; a
        game goes on exactly while energy is left, scoring as it does, and
        when it ends the score is whole and the game-over sound is the last
        cue. */
    method Animate(now: int, mouseX: real, mouseY: real)
      requires Valid()
      modifies this`frames, this`fps, this`fpsMin, this`fpsMax, this`timeLastSecond, this`difficulty,
        this`score, this`fc, this`fs, this`drawn, this`organisms, this`particles, this`cues,
        this`lastspawn, this`playing, this`duration,
        player`angle, player`energyRadiusTarget, player`energyRadius, player`shield, player`coreNodes, player`energy
      ensures Valid()
      ensures !old(playing) ==> !playing && score == old(score)
      ensures !old(playing) ==>
        player.energy == (if spaceIsDown && old(player.energy) > 10.0
                          then old(player.energy) - 0.1 else old(player.energy))
      ensures old(playing) && playing ==> score > old(score)
      ensures playing <==> old(playing) && player.energy != 0.0
      ensures old(playing) && !playing ==>
        score == score.Floor as real && cues != [] && cues[|cues| - 1] == PlayGameOver
      ensures old(playing) ==> |player.coreNodes| == CoreQuality
      ensures difficulty == old(difficulty) + (if old(playing) then 0.0015 else 0.0)
      ensures !old(playing) ==>
        fc == old(fc) && fs == old(fs) &&
        player.angle == old(player.angle) && player.energyRadiusTarget == old(player.energyRadiusTarget) &&
        player.energyRadius == old(player.energyRadius) && player.shield == old(player.shield) &&
        player.coreNodes == old(player.coreNodes)
    {
      TickPlayer(now, mouseX, mouseY);
      TickWorld(now);
      EndIfDrained(now);
    }

    /** The first part of the tick: frame-rate bookkeeping and the `if
        (playing)` block. A game in progress scores a positive amount. */
    method TickPlayer(now: int, mouseX: real, mouseY: real)
      requires Valid()
      modifies this`frames, this`fps, this`fpsMin, this`fpsMax, this`timeLastSecond,
               this`difficulty, this`score, this`fc, this`fs, this`drawn,
               player`angle, player`energyRadiusTarget, player`energyRadius,
               player`shield, player`coreNodes
      ensures Valid()
      ensures now > old(timeLastSecond) + 1000 ==>
        fps == FrameRate(old(frames) + 1, now - old(timeLastSecond)) &&
        fpsMin == MinInt(old(fpsMin), fps) && fpsMax == MaxInt(old(fpsMax), fps) &&
        timeLastSecond == now && frames == 0
      ensures now <= old(timeLastSecond) + 1000 ==>
        frames == old(frames) + 1 && fps == old(fps) && fpsMin == old(fpsMin) &&
        fpsMax == old(fpsMax) && timeLastSecond == old(timeLastSecond)
      ensures difficulty == old(difficulty) + (if playing then 0.0015 else 0.0)
      ensures playing ==> score > old(score) && |player.coreNodes| == CoreQuality
      ensures playing ==>
        score == old(score) + Gain(difficulty, ScoreFactor(fps)) &&
        fc == old(fc) + 1 && fs == old(fs) + Gain(difficulty, ScoreFactor(fps)) &&
        drawn == old(drawn) + 2 * CoreQuality &&
        player.angle == TurnToward(old(player.angle),
                          m.atan2(mouseY - player.position.y, mouseX - player.position.x)) &&
        player.energyRadiusTarget == CoreRadiusTarget(player.energy, player.radius) &&
        player.energyRadius == Ease(old(player.energyRadius), player.energyRadiusTarget, 0.2) &&
        player.shield == ShieldPoint(player.position, player.angle, player.radius, m) &&
        player.coreNodes == EasedCore(RefreshedCore(old(player.coreNodes), player.position,
                                        player.energyRadius, m, rand, old(drawn)), player.position)
      ensures !playing ==>
        score == old(score) && fc == old(fc) && fs == old(fs) && drawn == old(drawn) &&
        player.angle == old(player.angle) && player.energyRadiusTarget == old(player.energyRadiusTarget) &&
        player.energyRadius == old(player.energyRadius) && player.shield == old(player.shield) &&
        player.coreNodes == old(player.coreNodes)
    {
      UpdateFrameRate(now);
      var scoreFactor := ScoreFactor(fps);
      ScoreFactorBounds(fps, fps);
      AdvanceSession(scoreFactor, mouseX, mouseY);
    }

    /** The second part of the tick: the shield drain, the organism pass,
        the two spawn gates and the particle pass. Energy stays in range, the
        score never falls, and outside a game only the drain moves energy and
        the score stays. */
    method TickWorld(now: int)
      requires Valid()
      modifies this`organisms, this`particles, this`drawn, this`score, this`cues, this`lastspawn,
               player`energy
      ensures Valid()
      ensures score >= old(score)
      ensures !playing ==>
        player.energy == (if spaceIsDown && old(player.energy) > 10.0
                          then old(player.energy) - 0.1 else old(player.energy)) &&
        score == old(score)
    {
      DrainShield();
      var enemyCount, energyCount := UpdateOrganisms();
      SpawnEnemy(now, enemyCount);
      SpawnEnergy(energyCount);
      UpdateParticles();
    }

    /** The start button: ignored during a game; otherwise a new game begins
        with an empty arena, score 0, difficulty 1, the statistics cleared,
        energy 30 and the start time recorded. */
    method Start(now: int)
      requires Valid()
      modifies this`playing, this`organisms, this`score, this`difficulty, this`fc, this`fs,
               this`ms, this`cs, this`time, player`energy
      ensures Valid()
      ensures old(playing) ==> unchanged(this) && unchanged(player)
      ensures !old(playing) ==>
        playing && organisms == [] && score == 0.0 && difficulty == 1.0 &&
        fc == 0 && fs == 0.0 && ms == 0 && cs == 0 && player.energy == 30.0 && time == now
    {
      if playing == false {
        playing := true;
        organisms := [];
        score := 0.0;
        difficulty := 1.0;
        fc, fs, ms, cs := 0, 0.0, 0, 0;
        player.energy := 30.0;
        time := now;
      }
    }

    /** A key press: the space bar (key code 32), pressed while not already
        held and with energy above 15, costs 4 energy, in a game or not; it
        then counts as held. Other keys do nothing. */
    method KeyDown(keyCode: int)
      requires Valid()
      modifies this`spaceIsDown, player`energy
      ensures Valid()
      ensures keyCode == 32 ==>
        spaceIsDown &&
        player.energy == (if !old(spaceIsDown) && old(player.energy) > 15.0
                          then old(player.energy) - 4.0 else old(player.energy))
      ensures keyCode != 32 ==> spaceIsDown == old(spaceIsDown) && player.energy == old(player.energy)
    {
      if keyCode == 32 {
        if !spaceIsDown && player.energy > 15.0 {
          player.energy := player.energy - 4.0;
        }
        spaceIsDown := true;
      }
    }

    /** A key release: releasing the space bar ends the hold. */
    method KeyUp(keyCode: int)
      modifies this`spaceIsDown
      ensures spaceIsDown == (if keyCode == 32 then false else old(spaceIsDown))
    {
      if keyCode == 32 {
        spaceIsDown := false;
      }
    }
  }
}
