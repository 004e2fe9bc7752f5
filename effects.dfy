/** Particle effects: the bursts `emitParticles` appends and the per-tick
    fade pass over the particle list. */
module Effects {
  import opened Geometry
  import opened Entities

  /** The spread of a burst. The game emits with spread 5 where an
      organism dies and with spread 10 around the player at game over. */
  datatype Spread = Narrow | Wide

  /** The spread in pixels. */
  function SpreadRadius(spread: Spread): real
  {
    if spread == Narrow then 5.0 else 10.0
  }

  /** `Math.sin(q) * spread`, or the same with `cos`, for a given spread. */
  function Scaled(v: real, spread: Spread): (r: real)
    ensures -1.0 <= v <= 1.0 ==> -SpreadRadius(spread) <= r <= SpreadRadius(spread)
  {
    if spread == Narrow then v * 5.0 else v * 10.0
  }

  /** The particle the emission loop creates when its counter reads `q` and
      its two jitter draws are `vx` and `vy`: placed at `sin(q)` and `cos(q)`
      times the spread around the origin, moving with the bias direction plus
      `-1 + 2 * draw` per axis, fully opaque. */
  function Spark(origin: Vec, dir: Vec, spread: Spread, q: real, m: MathOps,
                 vx: real, vy: real): Particle
  {
    Particle(
      Vec(origin.x + Scaled(m.sin(q), spread), origin.y + Scaled(m.cos(q), spread)),
      Vec(dir.x + (-1.0 + vx * 2.0), dir.y + (-1.0 + vy * 2.0)),
      1.0)
  }

  /** How many turns `while (--q >= 0)` makes when the counter starts at
      `q`: one per decrement that leaves the counter non-negative, so
      `floor(q)` of them for `q >= 0` and none otherwise. */
  function Turns(q: real): nat
  {
    if q >= 0.0 then q.Floor else 0
  }

  /** `while (--q >= 0)` from counter `c` makes its turn number `k + 1`
      (the counter then being `c - (k + 1)`) exactly when `k + 1` is at
      most the turn count. */
  lemma TurnsBound(c: real, k: nat)
    ensures c - (k + 1) as real >= 0.0 <==> k + 1 <= Turns(c)
  {
  }

  /** The particles `n` turns of the loop append when the counter starts at
      `q`: the first made with the counter decremented to `q - 1`, the next
      at `q - 2`, and so on, each taking two draws and each fully opaque. */
  function Emit(origin: Vec, dir: Vec, spread: Spread, q: real, n: nat, m: MathOps,
                rand: nat -> real, idx: nat): (ps: seq<Particle>)
    ensures |ps| == n
    decreases n
  {
    if n == 0 then []
    else
      [Spark(origin, dir, spread, q - 1.0, m, rand(idx), rand(idx + 1))]
      + Emit(origin, dir, spread, q - 1.0, n - 1, m, rand, idx + 2)
  }

  /** Every particle of `ps` is fully opaque. */
  predicate Unfaded(ps: seq<Particle>)
  {
    forall i :: 0 <= i < |ps| ==> ps[i].alpha == 1.0
  }

  /** Every particle the loop appends starts fully opaque. */
  lemma {:induction false} EmitOpaque(origin: Vec, dir: Vec, spread: Spread, q: real, n: nat, m: MathOps,
                                      rand: nat -> real, idx: nat)
    ensures Unfaded(Emit(origin, dir, spread, q, n, m, rand, idx))
    decreases n
  {
    if n > 0 {
      var rest := Emit(origin, dir, spread, q - 1.0, n - 1, m, rand, idx + 2);
      EmitOpaque(origin, dir, spread, q - 1.0, n - 1, m, rand, idx + 2);
      var ps := Emit(origin, dir, spread, q, n, m, rand, idx);
      assert ps == [ps[0]] + rest;
    }
  }

  /** Turn `j` of the loop (from 0) taken on its own: the particle made at
      counter `q - (j + 1)` from draws `idx + 2j` and `idx + 2j + 1`. */
  function Nth(origin: Vec, dir: Vec, spread: Spread, q: real, m: MathOps,
               rand: nat -> real, idx: nat, j: nat): Particle
  {
    Spark(origin, dir, spread, q - (j + 1) as real, m, rand(idx + 2 * j), rand(idx + 2 * j + 1))
  }

  /** The recursive description of the loop agrees with the turn-by-turn
      one at every index. */
  lemma {:induction false} EmitNth(origin: Vec, dir: Vec, spread: Spread, q: real, n: nat, m: MathOps,
                                   rand: nat -> real, idx: nat, j: nat)
    requires j < n
    ensures Emit(origin, dir, spread, q, n, m, rand, idx)[j] == Nth(origin, dir, spread, q, m, rand, idx, j)
    decreases n
  {
    if j > 0 {
      EmitTail(origin, dir, spread, q, n, m, rand, idx, j);
      EmitNth(origin, dir, spread, q - 1.0, n - 1, m, rand, idx + 2, j - 1);
      NthShift(origin, dir, spread, q, m, rand, idx, j - 1);
    } else {
      EmitHead(origin, dir, spread, q, n, m, rand, idx);
    }
  }

  /** The first turn of the loop is turn 0 as `Nth` describes it. */
  lemma EmitHead(origin: Vec, dir: Vec, spread: Spread, q: real, n: nat, m: MathOps,
                 rand: nat -> real, idx: nat)
    requires n > 0
    ensures Emit(origin, dir, spread, q, n, m, rand, idx)[0] == Nth(origin, dir, spread, q, m, rand, idx, 0)
  {
    assert q - (0 + 1) as real == q - 1.0 && idx + 2 * 0 == idx;
  }

  /** Past the first turn, the loop from `q` continues as the loop from
      `q - 1` one turn shorter, two draws later. */
  lemma EmitTail(origin: Vec, dir: Vec, spread: Spread, q: real, n: nat, m: MathOps,
                 rand: nat -> real, idx: nat, j: nat)
    requires 0 < j < n
    ensures Emit(origin, dir, spread, q, n, m, rand, idx)[j] ==
            Emit(origin, dir, spread, q - 1.0, n - 1, m, rand, idx + 2)[j - 1]
  {
  }

  /** Turn `j + 1` from counter `q` and draw `idx` is turn `j` from the
      counter and draw one turn later. */
  lemma NthShift(origin: Vec, dir: Vec, spread: Spread, q: real, m: MathOps,
                 rand: nat -> real, idx: nat, j: nat)
    ensures Nth(origin, dir, spread, q - 1.0, m, rand, idx + 2, j) == Nth(origin, dir, spread, q, m, rand, idx, j + 1)
  {
    assert (q - 1.0) - (j + 1) as real == q - (j + 2) as real;
    assert idx + 2 + 2 * j == idx + 2 * (j + 1);
  }

  /** `ps` holds the first `|ps|` turns of the loop, each as `Nth` says. */
  predicate Turned(ps: seq<Particle>, origin: Vec, dir: Vec, spread: Spread, q: real, m: MathOps,
                   rand: nat -> real, idx: nat)
  {
    forall j :: 0 <= j < |ps| ==> ps[j] == Nth(origin, dir, spread, q, m, rand, idx, j)
  }

  /** One more turn of the loop extends the particles made so far. */
  lemma TurnedAppend(ps: seq<Particle>, p: Particle, origin: Vec, dir: Vec, spread: Spread, q: real,
                     m: MathOps, rand: nat -> real, idx: nat)
    requires Turned(ps, origin, dir, spread, q, m, rand, idx)
    requires p == Nth(origin, dir, spread, q, m, rand, idx, |ps|)
    ensures Turned(ps + [p], origin, dir, spread, q, m, rand, idx)
  {
  }

  /** Particles made turn by turn are exactly what `Emit` describes for
      that many turns. */
  lemma TurnedIsEmit(ps: seq<Particle>, origin: Vec, dir: Vec, spread: Spread, q: real,
                     m: MathOps, rand: nat -> real, idx: nat)
    requires Turned(ps, origin, dir, spread, q, m, rand, idx)
    ensures ps == Emit(origin, dir, spread, q, |ps|, m, rand, idx)
  {
    var es := Emit(origin, dir, spread, q, |ps|, m, rand, idx);
    forall j | 0 <= j < |ps|
      ensures ps[j] == es[j]
    {
      EmitNth(origin, dir, spread, q, |ps|, m, rand, idx, j);
    }
  }

  /** The counter `emitParticles` starts from: `seed + Math.random() * seed`,
      which for a draw in [0, 1) and a positive seed lies in [seed, 2 seed). */
  function BurstCounter(seed: real, r: real): (q: real)
    ensures 0.0 <= r < 1.0 && seed > 0.0 ==> seed <= q < 2.0 * seed
  {
    var q := seed + r * seed;
    if 0.0 <= r < 1.0 && seed > 0.0 then
      ProductSign(1.0 - r, seed);
      assert r * seed >= 0.0 by {
        if r > 0.0 { ProductSign(r, seed); }
      }
      q
    else q
  }

  /** `emitParticles(position, direction, spread, seed)` with its first draw
      `rand(idx)`. */
  function Burst(origin: Vec, dir: Vec, spread: Spread, seed: real, m: MathOps,
                 rand: nat -> real, idx: nat): seq<Particle>
  {
    var q := BurstCounter(seed, rand(idx));
    Emit(origin, dir, spread, q, Turns(q), m, rand, idx + 1)
  }

  /** Every particle of a burst starts fully opaque. */
  lemma BurstOpaque(origin: Vec, dir: Vec, spread: Spread, seed: real, m: MathOps,
                    rand: nat -> real, idx: nat)
    ensures Unfaded(Burst(origin, dir, spread, seed, m, rand, idx))
  {
    var q := BurstCounter(seed, rand(idx));
    EmitOpaque(origin, dir, spread, q, Turns(q), m, rand, idx + 1);
  }

  /** How many draws a burst consumes: one for its size and two per particle. */
  function BurstDraws(origin: Vec, dir: Vec, spread: Spread, seed: real, m: MathOps,
                      rand: nat -> real, idx: nat): nat
  {
    1 + 2 * |Burst(origin, dir, spread, seed, m, rand, idx)|
  }

  /** A burst of integer seed `s >= 1` holds between `s` and `2s - 1`
      particles: the counter starts in [s, 2s) and the loop emits its floor. */
  lemma BurstSize(origin: Vec, dir: Vec, spread: Spread, s: nat, m: MathOps,
                  rand: nat -> real, idx: nat)
    requires s >= 1 && 0.0 <= rand(idx) < 1.0
    ensures |Burst(origin, dir, spread, s as real, m, rand, idx)| == (s as real + rand(idx) * s as real).Floor
    ensures s <= |Burst(origin, dir, spread, s as real, m, rand, idx)| <= 2 * s - 1
  {
    var q := BurstCounter(s as real, rand(idx));
    assert s as real <= q < (2 * s) as real;
    assert Turns(q) == q.Floor < 2 * s;
  }

  /** Every particle of a burst starts within the spread of the origin on
      each axis. */
  lemma {:induction false} EmitWithinSpread(origin: Vec, dir: Vec, spread: Spread, q: real, n: nat,
                                            m: MathOps, rand: nat -> real, idx: nat)
    requires Lawful(m)
    ensures forall p <- Emit(origin, dir, spread, q, n, m, rand, idx) ::
      Abs(p.position.x - origin.x) <= SpreadRadius(spread) &&
      Abs(p.position.y - origin.y) <= SpreadRadius(spread)
    decreases n
  {
    if n > 0 {
      assert -1.0 <= m.sin(q - 1.0) <= 1.0 && -1.0 <= m.cos(q - 1.0) <= 1.0;
      EmitWithinSpread(origin, dir, spread, q - 1.0, n - 1, m, rand, idx + 2);
    }
  }

  /** Every particle of a burst moves with the bias direction plus at most
      one unit of jitter, from below inclusive, per axis. */
  lemma {:induction false} EmitVelocity(origin: Vec, dir: Vec, spread: Spread, q: real, n: nat,
                                        m: MathOps, rand: nat -> real, idx: nat)
    requires UnitDraws(rand)
    ensures forall p <- Emit(origin, dir, spread, q, n, m, rand, idx) ::
      dir.x - 1.0 <= p.velocity.x < dir.x + 1.0 && dir.y - 1.0 <= p.velocity.y < dir.y + 1.0
    decreases n
  {
    if n > 0 {
      assert 0.0 <= rand(idx) < 1.0 && 0.0 <= rand(idx + 1) < 1.0;
      EmitVelocity(origin, dir, spread, q - 1.0, n - 1, m, rand, idx + 2);
    }
  }

  /** One tick of a particle: it moves by its velocity and fades by 0.02. */
  function Advance(p: Particle): (r: Particle)
    ensures r.alpha < p.alpha && r.velocity == p.velocity
  {
    p.(position := Add(p.position, p.velocity), alpha := p.alpha - 0.02)
  }

  /** The particle pass of the tick as written: every visited particle
      advances; one that has faded to zero or below is spliced out, and
      because the index is not stepped back the particle right after it is
      skipped, kept as it was for this tick. */
  function Fade(ps: seq<Particle>): (r: seq<Particle>)
    ensures |r| <= |ps|
    ensures (forall p <- ps :: 0.0 < p.alpha <= 1.0) ==> forall p <- r :: 0.0 < p.alpha <= 1.0
  {
    if ps == [] then []
    else if Advance(ps[0]).alpha <= 0.0 then
      (if |ps| == 1 then [] else [ps[1]] + Fade(ps[2..]))
    else
      [Advance(ps[0])] + Fade(ps[1..])
  }

  /** How many particles of `ps` run out when advanced once. */
  function Expiring(ps: seq<Particle>): (n: nat)
    ensures n <= |ps|
  {
    if ps == [] then 0
    else (if Advance(ps[0]).alpha <= 0.0 then 1 else 0) + Expiring(ps[1..])
  }

  /** The pass loses at most one particle for each one that runs out: the
      particles still visible after advancing are never lost, even though
      the one after an expired particle is skipped. */
  lemma {:induction false} FadeKeepsUnexpired(ps: seq<Particle>)
    ensures |Fade(ps)| >= |ps| - Expiring(ps)
    decreases |ps|
  {
    if ps != [] {
      if Advance(ps[0]).alpha <= 0.0 {
        if |ps| > 1 {
          FadeKeepsUnexpired(ps[2..]);
          assert ps[1..][1..] == ps[2..];
          assert Expiring(ps[1..]) >= Expiring(ps[2..]);
        }
      } else {
        FadeKeepsUnexpired(ps[1..]);
      }
    }
  }

  /** No visible particle is lost: a particle still visible after
      advancing comes out of the pass, advanced, or as it was when it is
      the one skipped after an expired particle. */
  lemma {:induction false} FadeKeepsVisible(ps: seq<Particle>, i: nat)
    requires i < |ps| && Advance(ps[i]).alpha > 0.0
    ensures Advance(ps[i]) in Fade(ps) || ps[i] in Fade(ps)
    decreases |ps|
  {
    if Advance(ps[0]).alpha <= 0.0 {
      if i >= 2 {
        FadeKeepsVisible(ps[2..], i - 2);
        assert ps[2..][i - 2] == ps[i];
        assert Fade(ps) == [ps[1]] + Fade(ps[2..]);
      } else {
        assert Fade(ps)[0] == ps[1];
      }
    } else if i >= 1 {
      FadeKeepsVisible(ps[1..], i - 1);
      assert ps[1..][i - 1] == ps[i];
      assert Fade(ps) == [Advance(ps[0])] + Fade(ps[1..]);
    } else {
      assert Fade(ps)[0] == Advance(ps[0]);
    }
  }

  /** Reference behaviour: when no particle runs out this tick, the pass
      advances every particle once and keeps them all, in order. */
  lemma {:induction false} FadeWithoutExpiry(ps: seq<Particle>)
    requires forall p <- ps :: p.alpha > 0.02
    ensures Fade(ps) == seq(|ps|, i requires 0 <= i < |ps| => Advance(ps[i]))
  {
    if ps != [] {
      assert ps[0] in ps;
      FadeWithoutExpiry(ps[1..]);
    }
  }

  /** The skip: when the first particle runs out, the one after it comes
      through this tick unchanged, neither moved nor faded. */
  lemma ParticleAfterExpiredIsSkipped(ps: seq<Particle>)
    requires |ps| >= 2 && ps[0].alpha <= 0.02
    ensures Fade(ps)[0] == ps[1]
  {
  }

  /** The list part-way through the pass: the entries before position `i`
      already handled, the rest still to be faded. */
  function FadeFrom(ps: seq<Particle>, i: nat): seq<Particle>
  {
    var c := if i <= |ps| then i else |ps|;
    ps[..c] + Fade(ps[c..])
  }

  /** A visit that keeps the particle: it is advanced in place and the
      pass moves on. */
  lemma FadeKeepStep(ps: seq<Particle>, i: nat)
    requires i < |ps| && Advance(ps[i]).alpha > 0.0
    ensures FadeFrom(ps[i := Advance(ps[i])], i + 1) == FadeFrom(ps, i)
  {
    var q := ps[i := Advance(ps[i])];
    assert ps[i..][1..] == ps[i + 1..];
    assert q[..i + 1] == ps[..i] + [Advance(ps[i])];
    assert q[i + 1..] == ps[i + 1..];
  }

  /** A visit that splices the particle out: the index still moves on, so
      the next particle is passed over. */
  lemma FadeDropStep(ps: seq<Particle>, i: nat)
    requires i < |ps| && Advance(ps[i]).alpha <= 0.0
    ensures FadeFrom(ps[..i] + ps[i + 1..], i + 1) == FadeFrom(ps, i)
  {
    var q := ps[..i] + ps[i + 1..];
    if i + 1 < |ps| {
      assert ps[i..][1] == ps[i + 1] && ps[i..][2..] == ps[i + 2..];
      assert q[..i + 1] == ps[..i] + [ps[i + 1]];
      assert q[i + 1..] == ps[i + 2..];
    } else {
      assert q == ps[..i];
      assert ps[i..] == [ps[i]];
    }
  }
}
