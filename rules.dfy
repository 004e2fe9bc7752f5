/** The organism pass of the tick: movement, fade-in, the three interaction
    rules, boundary culling, and the walk over the whole list that removes
    the dead, emits their bursts and counts the survivors by kind. */
module Rules {
  import opened Geometry
  import opened Entities
  import opened Effects

  /** What the organism pass reads and does not change: the session flag,
      the shield key, the player's position, facing, radius and core radius,
      the world size, the math functions and the random stream. */
  datatype Env = Env(
    playing: bool,
    spaceIsDown: bool,
    center: Vec,
    facing: real,
    radius: real,
    coreRadius: real,
    width: real,
    height: real,
    m: MathOps,
    rand: nat -> real)

  /** What the organism pass accumulates: the survivors so far, the player's
      energy, the score, the particle list, the next unused draw, the audio
      trace and the two survivor counters. */
  datatype Tally = Tally(
    survivors: seq<Organism>,
    energy: real,
    score: real,
    particles: seq<Particle>,
    drawn: nat,
    cues: seq<Cue>,
    enemyCount: nat,
    energyCount: nat)

  /** The result of the interaction rules on one organism. */
  datatype Contact = Contact(organism: Organism, energy: real, score: real, cues: seq<Cue>)

  /** One tick of motion: the organism moves by its velocity and its alpha
      eases a tenth of the way toward 1. */
  function Move(o: Organism): (r: Organism)
    ensures r.velocity == o.velocity && r.size == o.size && r.kind == o.kind && r.dead == o.dead
    ensures 0.0 <= o.alpha <= 1.0 ==> o.alpha <= r.alpha <= 1.0
  {
    o.(position := Add(o.position, o.velocity), alpha := Ease(o.alpha, 1.0, 0.1))
  }

  /** The angular distance between two directions, folded once by 2·PI. */
  function ArcGap(a: real, b: real): real
  {
    var d := Abs(a - b);
    if d > PI then PI * 2.0 - d else d
  }

  /** Between two directions of the `atan2` range the folded gap is the
      shorter way round, in [0, PI]. */
  lemma ArcGapRange(a: real, b: real)
    requires -PI <= a <= PI && -PI <= b <= PI
    ensures 0.0 <= ArcGap(a, b) <= PI
  {
  }

  /** The organism's distance from the player. */
  function Reach(env: Env, o: Organism): real
  {
    DistanceTo(o.position, env.center, env.m)
  }

  /** Shield deflection: the organism is within 1.6 rad of the facing and on
      the thin ring between radius - 5 and radius + 5, whatever its kind and
      whether or not the shield key is held. */
  predicate InShieldArc(env: Env, o: Organism)
  {
    var angle := env.m.atan2(o.position.y - env.center.y, o.position.x - env.center.x);
    ArcGap(angle, env.facing) < 1.6 &&
    Reach(env, o) > env.radius - 5.0 && Reach(env, o) < env.radius + 5.0
  }

  /** Active shield kill: the key is held, the organism is inside the shield
      radius and the energy is above 11. */
  predicate ShieldStrikes(env: Env, o: Organism, energy: real)
  {
    env.spaceIsDown && Reach(env, o) < env.radius && energy > 11.0
  }

  /** Core contact: the organism reaches the energy core. */
  predicate TouchesCore(env: Env, o: Organism)
  {
    Reach(env, o) < env.coreRadius + o.size * 0.5
  }

  /** The three interaction rules of a playing tick, as three independent
      tests in this order, each of which may mark the organism dead: shield
      deflection (audio cue), active shield kill (+4 score, tested against the
      energy before this organism's core contact), and core contact (an enemy
      takes 6 energy, an orb gives 8 energy and 30 score, energy clamped to
      [0, 100]). Only the dead flag of the organism changes, and it is dead
      afterwards exactly when it was before or one of the rules fired. */
  function Interact(env: Env, o: Organism, energy: real, score: real): (c: Contact)
    ensures c.organism == o.(dead := c.organism.dead)
    ensures c.organism.dead <==>
      o.dead || InShieldArc(env, o) || ShieldStrikes(env, o, energy) || TouchesCore(env, o)
    ensures c.score == score + (if ShieldStrikes(env, o, energy) then 4.0 else 0.0)
                              + (if TouchesCore(env, o) && o.kind == EnergyOrb then 30.0 else 0.0)
    ensures 0.0 <= energy <= 100.0 ==> 0.0 <= c.energy <= 100.0
    ensures !TouchesCore(env, o) ==> c.energy == energy
  {
    var deflected := InShieldArc(env, o);
    var o1 := if deflected then o.(dead := true) else o;
    var cues1 := if deflected then [OrganismDead] else [];
    var killed := ShieldStrikes(env, o, energy);
    var o2 := if killed then o1.(dead := true) else o1;
    var score2 := if killed then score + 4.0 else score;
    if TouchesCore(env, o) then
      var e := if o.kind == Enemy then energy - 6.0 else energy + 8.0;
      var s := if o.kind == EnergyOrb then score2 + 30.0 else score2;
      var cue := if o.kind == Enemy then EnergyDown else EnergyUp;
      Contact(o2.(dead := true), Clamp(e, 0.0, 100.0), s, cues1 + [cue])
    else
      Contact(o2, energy, score2, cues1)
  }

  /** An enemy reaching the core costs 6 energy, clamped at 0, and earns no
      score beyond what the active shield kill adds. */
  lemma EnemyContact(env: Env, o: Organism, energy: real, score: real)
    requires o.kind == Enemy && TouchesCore(env, o) && 0.0 <= energy <= 100.0
    ensures var c := Interact(env, o, energy, score);
      c.organism.dead &&
      c.energy == (if energy >= 6.0 then energy - 6.0 else 0.0) &&
      c.score == score + (if ShieldStrikes(env, o, energy) then 4.0 else 0.0) &&
      EnergyDown in c.cues
  {
  }

  /** An orb reaching the core gives 8 energy, clamped at 100, and 30 score;
      when the active shield kill fires on it too, both scores are paid:
      the rules are not first-match-wins. */
  lemma OrbContact(env: Env, o: Organism, energy: real, score: real)
    requires o.kind == EnergyOrb && TouchesCore(env, o) && 0.0 <= energy <= 100.0
    ensures var c := Interact(env, o, energy, score);
      c.organism.dead &&
      c.energy == (if energy <= 92.0 then energy + 8.0 else 100.0) &&
      c.score == score + 30.0 + (if ShieldStrikes(env, o, energy) then 4.0 else 0.0) &&
      EnergyUp in c.cues
  {
  }

  /** The deflection cue is played exactly when the organism is in the shield
      arc on the shield ring, and an organism six units beyond the shield
      radius is never deflected. */
  lemma DeflectionCue(env: Env, o: Organism, energy: real, score: real)
    ensures OrganismDead in Interact(env, o, energy, score).cues <==> InShieldArc(env, o)
    ensures Reach(env, o) == env.radius + 6.0 ==> !InShieldArc(env, o)
  {
  }

  /** An organism outside [-size, width + size] × [-size, height + size]. */
  predicate OutOfBounds(env: Env, o: Organism)
  {
    o.position.x < -o.size || o.position.x > env.width + o.size ||
    o.position.y < -o.size || o.position.y > env.height + o.size
  }

  /** Boundary culling: an organism outside the box is marked dead; nothing
      else about it changes, and a dead organism stays dead. */
  function Cull(env: Env, o: Organism): (r: Organism)
    ensures r == o.(dead := r.dead)
    ensures r.dead <==> o.dead || OutOfBounds(env, o)
  {
    if OutOfBounds(env, o) then o.(dead := true) else o
  }

  /** The bias a dead organism's burst gets: away from the player. */
  function Recoil(env: Env, o: Organism): Vec
  {
    Vec((o.position.x - env.center.x) * 0.02, (o.position.y - env.center.y) * 0.02)
  }

  /** What becomes of `o` this tick, with the energy, score and cues its
      rules produce: it moves, meets the rules when a game is on, and is
      culled. It ends dead exactly when it already was, it left the box, or
      (in a game) one of the three rules fired; a live one is just the moved
      organism. Outside a game energy and score do not change and no cue
      plays. */
  function Fate(env: Env, o: Organism, energy: real, score: real): (c: Contact)
    ensures c.organism.dead <==>
      o.dead || OutOfBounds(env, Move(o)) ||
      (env.playing && (InShieldArc(env, Move(o)) || ShieldStrikes(env, Move(o), energy) ||
                       TouchesCore(env, Move(o))))
    ensures !c.organism.dead ==> c.organism == Move(o)
    ensures !env.playing ==> c.energy == energy && c.score == score && c.cues == []
  {
    var moved := Move(o);
    var c := if env.playing then Interact(env, moved, energy, score)
             else Contact(moved, energy, score, []);
    c.(organism := Cull(env, c.organism))
  }

  /** One iteration of the organism loop on `o`. */
  function Step(env: Env, o: Organism, t: Tally): Tally
  {
    var c := Fate(env, o, t.energy, t.score);
    var n := c.organism;
    if n.dead then
      var b := Burst(n.position, Recoil(env, n), Narrow, 5.0, env.m, env.rand, t.drawn);
      t.(energy := c.energy, score := c.score, cues := t.cues + c.cues,
         particles := t.particles + b,
         drawn := t.drawn + BurstDraws(n.position, Recoil(env, n), Narrow, 5.0, env.m, env.rand, t.drawn))
    else
      t.(survivors := t.survivors + [n], energy := c.energy, score := c.score,
         cues := t.cues + c.cues,
         enemyCount := t.enemyCount + (if n.kind == Enemy then 1 else 0),
         energyCount := t.energyCount + (if n.kind == EnergyOrb then 1 else 0))
  }

  /** The whole organism loop over `orgs`, in list order, from tally `t`. */
  function Sweep(env: Env, orgs: seq<Organism>, t: Tally): Tally
    decreases |orgs|
  {
    if orgs == [] then t else Sweep(env, orgs[1..], Step(env, orgs[0], t))
  }

  /** The tally the loop starts from. */
  function StartTally(energy: real, score: real, particles: seq<Particle>, drawn: nat,
                      cues: seq<Cue>): Tally
  {
    Tally([], energy, score, particles, drawn, cues, 0, 0)
  }

  /** `a` is `b` with some elements left out, the rest kept in order. */
  ghost predicate IsSubsequence(a: seq<Organism>, b: seq<Organism>)
    decreases |b|
  {
    if a == [] then true
    else if b == [] then false
    else (a[0] == b[0] && IsSubsequence(a[1..], b[1..])) || IsSubsequence(a, b[1..])
  }

  /** The organisms after one tick of motion, before any rule. */
  function MovedAll(orgs: seq<Organism>): seq<Organism>
  {
    seq(|orgs|, i requires 0 <= i < |orgs| => Move(orgs[i]))
  }

  /** How many organisms of `s` are of kind `k`. */
  function CountKind(k: Kind, s: seq<Organism>): nat
  {
    if s == [] then 0 else CountKind(k, s[..|s| - 1]) + (if s[|s| - 1].kind == k then 1 else 0)
  }

  /** Every organism is an enemy or an orb, so the two counts add up to the
      length. */
  lemma {:induction false} CountKindSum(s: seq<Organism>)
    ensures CountKind(Enemy, s) + CountKind(EnergyOrb, s) == |s|
  {
    if s != [] {
      CountKindSum(s[..|s| - 1]);
    }
  }

  /** The loop removes every organism that ends the tick dead: none of the
      survivors is dead, and survivors already counted stay first. */
  lemma {:induction false} SweepKeepsOnlyLive(env: Env, orgs: seq<Organism>, t: Tally)
    requires forall o <- t.survivors :: !o.dead
    ensures var r := Sweep(env, orgs, t);
      (forall o <- r.survivors :: !o.dead) &&
      |t.survivors| <= |r.survivors| && r.survivors[..|t.survivors|] == t.survivors
    decreases |orgs|
  {
    if orgs != [] {
      var t' := Step(env, orgs[0], t);
      SweepKeepsOnlyLive(env, orgs[1..], t');
    }
  }

  /** The fate of each organism of `orgs` in turn, the energy and score
      carried from one to the next as the loop carries them. */
  function Fates(env: Env, orgs: seq<Organism>, energy: real, score: real): (r: seq<Organism>)
    ensures |r| == |orgs|
    decreases |orgs|
  {
    if orgs == [] then []
    else
      var c := Fate(env, orgs[0], energy, score);
      [c.organism] + Fates(env, orgs[1..], c.energy, c.score)
  }

  /** The live organisms of `s`, in order: none of them is dead, and every
      live organism of `s` is among them. */
  function Alive(s: seq<Organism>): (r: seq<Organism>)
    ensures |r| <= |s|
    ensures forall o <- r :: !o.dead
    ensures forall o <- s :: !o.dead ==> o in r
    decreases |s|
  {
    if s == [] then []
    else (if s[0].dead then [] else [s[0]]) + Alive(s[1..])
  }

  /** The loop keeps exactly the organisms whose fate is live, in list
      order, after the survivors already counted: an organism is spliced
      out if and only if it ended the tick dead. */
  lemma {:induction false} SweepKeepsOrder(env: Env, orgs: seq<Organism>, t: Tally)
    ensures Sweep(env, orgs, t).survivors == t.survivors + Alive(Fates(env, orgs, t.energy, t.score))
    decreases |orgs|
  {
    if orgs != [] {
      var c := Fate(env, orgs[0], t.energy, t.score);
      var t' := Step(env, orgs[0], t);
      SweepKeepsOrder(env, orgs[1..], t');
      var rest := Fates(env, orgs[1..], c.energy, c.score);
      var fs := Fates(env, orgs, t.energy, t.score);
      assert fs == [c.organism] + rest;
      assert fs[0] == c.organism && fs[1..] == rest;
      assert Alive(fs) == (if c.organism.dead then [] else [c.organism]) + Alive(rest);
    }
  }

  /** The survivors are the moved organisms with some left out, each
      unchanged and in the original order. */
  lemma {:induction false} AliveFatesAreMoved(env: Env, orgs: seq<Organism>, energy: real, score: real)
    ensures IsSubsequence(Alive(Fates(env, orgs, energy, score)), MovedAll(orgs))
    decreases |orgs|
  {
    if orgs != [] {
      var c := Fate(env, orgs[0], energy, score);
      var rest := Fates(env, orgs[1..], c.energy, c.score);
      AliveFatesAreMoved(env, orgs[1..], c.energy, c.score);
      var fs := Fates(env, orgs, energy, score);
      assert fs == [c.organism] + rest;
      assert fs[0] == c.organism && fs[1..] == rest;
      var ms := MovedAll(orgs);
      assert ms[0] == Move(orgs[0]) && ms[1..] == MovedAll(orgs[1..]);
      var a := Alive(fs);
      if c.organism.dead {
        assert a == Alive(rest);
        SubsequenceOfTail(a, ms);
      } else {
        assert a == [c.organism] + Alive(rest);
        assert a[0] == ms[0] && a[1..] == Alive(rest);
      }
    }
  }

  lemma SubsequenceOfTail(a: seq<Organism>, b: seq<Organism>)
    requires b != [] && IsSubsequence(a, b[1..])
    ensures IsSubsequence(a, b)
  {
  }

  /** The two counters the loop keeps are the numbers of surviving enemies
      and orbs; so after the loop they add up to the length of the list. */
  lemma {:induction false} SweepCounts(env: Env, orgs: seq<Organism>, t: Tally)
    requires t.enemyCount == CountKind(Enemy, t.survivors)
    requires t.energyCount == CountKind(EnergyOrb, t.survivors)
    ensures var r := Sweep(env, orgs, t);
      r.enemyCount == CountKind(Enemy, r.survivors) &&
      r.energyCount == CountKind(EnergyOrb, r.survivors) &&
      r.enemyCount + r.energyCount == |r.survivors|
    decreases |orgs|
  {
    if orgs != [] {
      StepCounts(env, orgs[0], t);
      SweepCounts(env, orgs[1..], Step(env, orgs[0], t));
    } else {
      CountKindSum(t.survivors);
    }
  }

  /** One iteration keeps the counters equal to the survivor counts. */
  lemma StepCounts(env: Env, o: Organism, t: Tally)
    requires t.enemyCount == CountKind(Enemy, t.survivors)
    requires t.energyCount == CountKind(EnergyOrb, t.survivors)
    ensures var r := Step(env, o, t);
      r.enemyCount == CountKind(Enemy, r.survivors) &&
      r.energyCount == CountKind(EnergyOrb, r.survivors)
  {
    var r := Step(env, o, t);
    if |r.survivors| != |t.survivors| {
      assert r.survivors[..|r.survivors| - 1] == t.survivors;
    }
  }

  /** Energy stays within [0, 100] through the loop and the score never
      falls. */
  lemma {:induction false} SweepEnergyAndScore(env: Env, orgs: seq<Organism>, t: Tally)
    requires 0.0 <= t.energy <= 100.0
    ensures var r := Sweep(env, orgs, t);
      0.0 <= r.energy <= 100.0 && r.score >= t.score
    decreases |orgs|
  {
    if orgs != [] {
      SweepEnergyAndScore(env, orgs[1..], Step(env, orgs[0], t));
    }
  }

  /** Outside a game the rules do not run: energy, score and the audio
      trace come through the loop untouched (only culling removes
      organisms). */
  lemma {:induction false} SweepWhileIdle(env: Env, orgs: seq<Organism>, t: Tally)
    requires !env.playing
    ensures var r := Sweep(env, orgs, t);
      r.energy == t.energy && r.score == t.score && r.cues == t.cues
    decreases |orgs|
  {
    if orgs != [] {
      SweepWhileIdle(env, orgs[1..], Step(env, orgs[0], t));
    }
  }

  /** The particles already in the list are left untouched and every new
      one starts fully opaque. */
  lemma {:induction false} SweepParticles(env: Env, orgs: seq<Organism>, t: Tally)
    ensures var r := Sweep(env, orgs, t);
      |t.particles| <= |r.particles| && r.particles[..|t.particles|] == t.particles &&
      (forall i :: |t.particles| <= i < |r.particles| ==> r.particles[i].alpha == 1.0)
    decreases |orgs|
  {
    if orgs != [] {
      var t' := Step(env, orgs[0], t);
      var n := Fate(env, orgs[0], t.energy, t.score).organism;
      BurstOpaque(n.position, Recoil(env, n), Narrow, 5.0, env.m, env.rand, t.drawn);
      assert t'.particles[..|t.particles|] == t.particles;
      SweepParticles(env, orgs[1..], t');
      var r := Sweep(env, orgs[1..], t');
      assert r.particles[..|t.particles|] == r.particles[..|t'.particles|][..|t.particles|];
    }
  }

  /** Each organism the loop removes leaves a burst of at least five
      particles behind. */
  lemma {:induction false} SweepBursts(env: Env, orgs: seq<Organism>, t: Tally)
    requires UnitDraws(env.rand)
    ensures var r := Sweep(env, orgs, t);
      |r.survivors| - |t.survivors| <= |orgs| &&
      |r.particles| - |t.particles| >= 5 * (|orgs| - (|r.survivors| - |t.survivors|))
    decreases |orgs|
  {
    if orgs != [] {
      var t' := Step(env, orgs[0], t);
      if |t'.survivors| == |t.survivors| {
        var n := Fate(env, orgs[0], t.energy, t.score).organism;
        BurstSize(n.position, Recoil(env, n), Narrow, 5, env.m, env.rand, t.drawn);
        assert |t'.particles| >= |t.particles| + 5;
      }
      SweepBursts(env, orgs[1..], t');
    }
  }

  /** Fade-in: survivors keep an alpha in [0, 1] when they started there. */
  lemma {:induction false} SweepAlpha(env: Env, orgs: seq<Organism>, t: Tally)
    requires forall o <- orgs :: 0.0 <= o.alpha <= 1.0
    requires forall o <- t.survivors :: 0.0 <= o.alpha <= 1.0
    ensures forall o <- Sweep(env, orgs, t).survivors :: 0.0 <= o.alpha <= 1.0
    decreases |orgs|
  {
    if orgs != [] {
      assert orgs[0] in orgs;
      assert forall o <- orgs[1..] :: o in orgs;
      SweepAlpha(env, orgs[1..], Step(env, orgs[0], t));
    }
  }

  /** No survivor lies outside the culling box. */
  lemma {:induction false} SweepInBounds(env: Env, orgs: seq<Organism>, t: Tally)
    requires forall o <- t.survivors :: !OutOfBounds(env, o)
    ensures forall o <- Sweep(env, orgs, t).survivors :: !OutOfBounds(env, o)
    decreases |orgs|
  {
    if orgs != [] {
      SweepInBounds(env, orgs[1..], Step(env, orgs[0], t));
    }
  }
}
