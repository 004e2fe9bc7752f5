/** Spawning: `giveLife`, which places a new organism on an edge of the
    arena and aims it at the player. */
module Spawning {
  import opened Geometry
  import opened Entities

  /** The edge `Math.round(Math.random() * 3)` picks: 0 left, 1 top,
      2 right, 3 bottom. */
  function Edge(r: real): int
  {
    Round(r * 3.0)
  }

  /** The edge choice is not uniform: the outer edges get a sixth of the
      draws each and the middle two a third each. */
  lemma EdgeBands(r: real)
    requires 0.0 <= r < 1.0
    ensures 0 <= Edge(r) <= 3
    ensures Edge(r) == 0 <==> r < 1.0 / 6.0
    ensures Edge(r) == 1 <==> 1.0 / 6.0 <= r < 0.5
    ensures Edge(r) == 2 <==> 0.5 <= r < 5.0 / 6.0
    ensures Edge(r) == 3 <==> 5.0 / 6.0 <= r
  {
  }

  /** `Math.min(Math.max(Math.random(), 0.6), 0.75)`. */
  function Speed(r: real): (s: real)
    ensures 0.6 <= s <= 0.75
    ensures 0.6 <= r <= 0.75 ==> s == r
  {
    Min(Max(r, 0.6), 0.75)
  }

  /** One velocity component aimed along offset `d`: `d * 0.006 * speed`.
      For a positive speed it has the sign of the offset. */
  function Aim(d: real, speed: real): (v: real)
    ensures speed > 0.0 ==> (v > 0.0 <==> d > 0.0) && (v < 0.0 <==> d < 0.0)
  {
    var v := d * 0.006 * speed;
    assert speed > 0.0 ==> v == d * (0.006 * speed) && 0.006 * speed > 0.0;
    if speed > 0.0 then SameSign(d, 0.006 * speed); v else v
  }

  /** An enemy's boost of one velocity component: `v *= 1 + Math.random() * 0.1`.
      For a draw in [0, 1) the factor is in [1, 1.1) and the sign is kept. */
  function Boost(v: real, r: real): (b: real)
    ensures 0.0 <= r < 1.0 ==> (b > 0.0 <==> v > 0.0) && (b < 0.0 <==> v < 0.0)
  {
    var b := v * (1.0 + r * 0.1);
    if 0.0 <= r < 1.0 then SameSign(v, 1.0 + r * 0.1); b else b
  }

  /** A spawned organism and the next unused draw. */
  datatype Spawned = Spawned(organism: Organism, drawn: nat)

  /** The edge point `giveLife` puts the organism at for edge `side` and the
      draw `r`: 10 pixels in from the edge, at a random place along it. For
      a side outside 0..3 the switch has no case and the position stays. */
  function EdgePoint(side: int, r: real, width: real, height: real, old_: Vec): Vec
  {
    if side == 0 then Vec(10.0, height * r)
    else if side == 1 then Vec(width * r, 10.0)
    else if side == 2 then Vec(width - 10.0, height * r)
    else if side == 3 then Vec(width * r, height - 10.0)
    else old_
  }

  /** `giveLife(organism)` with its draws `rand(idx)`, `rand(idx + 1)`, ...:
      pick an edge, a point along it and a speed; aim the velocity at the
      player, `(player - position) * 0.006 * speed`; an enemy's velocity
      components are then each boosted by a factor in [1, 1.1); alpha is
      reset to 0. An enemy uses five draws, an orb three. */
  function GiveLife(o: Organism, width: real, height: real, center: Vec,
                    rand: nat -> real, idx: nat): (s: Spawned)
    ensures s.organism.kind == o.kind && s.organism.size == o.size && s.organism.dead == o.dead
    ensures s.organism.alpha == 0.0 && 0.6 <= s.organism.speed <= 0.75
    ensures s.drawn == idx + (if o.kind == Enemy then 5 else 3)
  {
    var side := Edge(rand(idx));
    var pos := EdgePoint(side, rand(idx + 1), width, height, o.position);
    var speed := Speed(rand(idx + 2));
    var v := Vec(Aim(center.x - pos.x, speed), Aim(center.y - pos.y, speed));
    if o.kind == Enemy then
      var boosted := Vec(Boost(v.x, rand(idx + 3)), Boost(v.y, rand(idx + 4)));
      Spawned(o.(position := pos, speed := speed, velocity := boosted, alpha := 0.0), idx + 5)
    else
      Spawned(o.(position := pos, speed := speed, velocity := v, alpha := 0.0), idx + 3)
  }

  /** A spawned organism starts on the chosen edge, inside the arena, and so
      inside the culling box. */
  lemma SpawnOnEdge(o: Organism, width: real, height: real, center: Vec,
                    rand: nat -> real, idx: nat)
    requires UnitDraws(rand) && width >= 10.0 && height >= 10.0
    ensures var p := GiveLife(o, width, height, center, rand, idx).organism.position;
      0.0 <= p.x <= width && 0.0 <= p.y <= height &&
      (p.x == 10.0 || p.y == 10.0 || p.x == width - 10.0 || p.y == height - 10.0)
  {
    var r, r1 := rand(idx), rand(idx + 1);
    assert 0.0 <= r < 1.0 && 0.0 <= r1 < 1.0;
    EdgeBands(r);
    ProductSign(1.0 - r1, width);
    ProductSign(1.0 - r1, height);
    if r1 > 0.0 {
      ProductSign(r1, width);
      ProductSign(r1, height);
    }
    assert 0.0 <= width * r1 <= width;
    assert 0.0 <= height * r1 <= height;
    var side := Edge(r);
    if side == 0 {
      assert EdgePoint(side, r1, width, height, o.position) == Vec(10.0, height * r1);
    } else if side == 1 {
      assert EdgePoint(side, r1, width, height, o.position) == Vec(width * r1, 10.0);
    } else if side == 2 {
      assert EdgePoint(side, r1, width, height, o.position) == Vec(width - 10.0, height * r1);
    } else {
      assert EdgePoint(side, r1, width, height, o.position) == Vec(width * r1, height - 10.0);
    }
  }

  /** A spawned organism heads for the player: on each axis its velocity has
      the sign of the offset from its position to the player (zero exactly
      when the offset is), and an orb's velocity is the offset scaled by
      0.006 times its speed, with no boost. */
  lemma SpawnAimedAtPlayer(o: Organism, width: real, height: real, center: Vec,
                           rand: nat -> real, idx: nat)
    requires UnitDraws(rand)
    ensures var n := GiveLife(o, width, height, center, rand, idx).organism;
      var dx, dy := center.x - n.position.x, center.y - n.position.y;
      (dx > 0.0 <==> n.velocity.x > 0.0) && (dx < 0.0 <==> n.velocity.x < 0.0) &&
      (dy > 0.0 <==> n.velocity.y > 0.0) && (dy < 0.0 <==> n.velocity.y < 0.0) &&
      (o.kind == EnergyOrb ==>
         n.velocity == Vec(Aim(dx, n.speed), Aim(dy, n.speed)))
  {
    assert 0.0 <= rand(idx + 3) < 1.0 && 0.0 <= rand(idx + 4) < 1.0;
  }

  lemma SameSign(a: real, k: real)
    requires k > 0.0
    ensures (a > 0.0 <==> a * k > 0.0) && (a < 0.0 <==> a * k < 0.0)
  {
    if a > 0.0 { ProductSign(a, k); }
    if a < 0.0 { ProductSign(-a, k); }
  }
}
