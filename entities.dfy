/** The things that live in the arena: organisms, particles, the nodes of
    the player's core outline, the audio cues the game triggers, and the
    player itself. */
module Entities {
  import opened Geometry

  /** The `type` tag of an organism: `'enemy'` or `'energy'`. */
  datatype Kind = Enemy | EnergyOrb

  /** An enemy or energy organism. The source mutates these objects in place
      while it holds them in its `organisms` array; here an update replaces
      the element of the sequence. */
  datatype Organism = Organism(
    position: Vec,
    velocity: Vec,
    size: real,
    speed: real,
    kind: Kind,
    alpha: real,
    dead: bool)

  /** A fading dot of a particle burst. */
  datatype Particle = Particle(position: Vec, velocity: Vec, alpha: real)

  /** One node of the player's deformable core outline. */
  datatype CoreNode = CoreNode(position: Vec, normal: Vec, normalTarget: Vec, offset: Vec)

  /** The `CoreAudio` calls, recorded as a trace instead of played. */
  datatype Cue =
    | PlayShield
    | PlaySynth(pan: real)
    | OrganismDead
    | EnergyDown
    | EnergyUp
    | PlayGameOver

  function Add(a: Vec, b: Vec): Vec { Vec(a.x + b.x, a.y + b.y) }

  /** The `Enemy` constructor, given the one `Math.random()` draw it makes:
      an enemy of size in [6, 10) at the origin, at rest, with speed 1. */
  function NewEnemy(r: real): (o: Organism)
    ensures o.kind == Enemy && !o.dead && o.speed == 1.0
    ensures o.position == Vec(0.0, 0.0) && o.velocity == Vec(0.0, 0.0)
    ensures 0.0 <= r < 1.0 ==> 6.0 <= o.size < 10.0
  {
    Organism(Vec(0.0, 0.0), Vec(0.0, 0.0), 6.0 + r * 4.0, 1.0, Enemy, 0.0, false)
  }

  /** The `Energy` constructor: an energy orb of size in [10, 16). */
  function NewEnergy(r: real): (o: Organism)
    ensures o.kind == EnergyOrb && !o.dead && o.speed == 1.0
    ensures 0.0 <= r < 1.0 ==> 10.0 <= o.size < 16.0
  {
    Organism(Vec(0.0, 0.0), Vec(0.0, 0.0), 10.0 + r * 6.0, 1.0, EnergyOrb, 0.0, false)
  }

  /** The number of nodes of the core outline (`coreQuality`). */
  const CoreQuality: nat := 16

  /** The angular slot of node `i`: `(i / coreQuality) * PI * 2`. */
  function Slot(i: nat): real
  {
    (i as real / CoreQuality as real) * PI * 2.0
  }

  /** The normal `updateCore` gives node `i`: the direction of its slot
      scaled by the current energy radius. */
  function CoreNormal(i: nat, energyRadius: real, m: MathOps): Vec
  {
    Vec(m.cos(Slot(i)) * energyRadius, m.sin(Slot(i)) * energyRadius)
  }

  /** The jitter `updateCore` draws for one node: two `Math.random() * 5`. */
  function Jitter(rand: nat -> real, k: nat): (j: Vec)
    ensures 0.0 <= rand(k) < 1.0 && 0.0 <= rand(k + 1) < 1.0 ==>
              0.0 <= j.x < 5.0 && 0.0 <= j.y < 5.0
  {
    Vec(rand(k) * 5.0, rand(k + 1) * 5.0)
  }

  /** The node `updateCore` creates when the outline is empty. */
  function NewNode(center: Vec): CoreNode
  {
    CoreNode(center, Vec(0.0, 0.0), Vec(0.0, 0.0), Vec(0.0, 0.0))
  }

  /** The outline after `updateCore`: `coreQuality` nodes, created at
      `center` when `nodes` is empty, each with the normal of its slot and
      the jitter drawn from `rand(start + 2i)` and `rand(start + 2i + 1)`. */
  function RefreshedCore(nodes: seq<CoreNode>, center: Vec, energyRadius: real,
                         m: MathOps, rand: nat -> real, start: nat): (r: seq<CoreNode>)
    requires |nodes| == 0 || |nodes| == CoreQuality
    ensures |r| == CoreQuality
  {
    var base := if nodes == [] then seq(CoreQuality, i => NewNode(center)) else nodes;
    seq(CoreQuality, i requires 0 <= i < CoreQuality =>
      base[i].(normal := CoreNormal(i, energyRadius, m), offset := Jitter(rand, start + 2 * i)))
  }

  /** What `updateCore` promises: afterwards there are exactly `coreQuality`
      nodes; positions and reserved targets are those of the old nodes, or of
      fresh nodes at the player when there were none; every normal is the
      slot's normal at the current energy radius; every jitter component is
      in [0, 5). */
  lemma RefreshedCoreShape(nodes: seq<CoreNode>, center: Vec, energyRadius: real,
                           m: MathOps, rand: nat -> real, start: nat)
    requires |nodes| == 0 || |nodes| == CoreQuality
    requires UnitDraws(rand)
    ensures var r := RefreshedCore(nodes, center, energyRadius, m, rand, start);
      |r| == CoreQuality &&
      forall i :: 0 <= i < CoreQuality ==>
        r[i].position == (if nodes == [] then center else nodes[i].position) &&
        r[i].normalTarget == (if nodes == [] then Vec(0.0, 0.0) else nodes[i].normalTarget) &&
        r[i].normal == CoreNormal(i, energyRadius, m) &&
        0.0 <= r[i].offset.x < 5.0 && 0.0 <= r[i].offset.y < 5.0
  {
    var r := RefreshedCore(nodes, center, energyRadius, m, rand, start);
    forall i | 0 <= i < CoreQuality
      ensures 0.0 <= r[i].offset.x < 5.0 && 0.0 <= r[i].offset.y < 5.0
    {
      assert 0.0 <= rand(start + 2 * i) < 1.0 && 0.0 <= rand(start + 2 * i + 1) < 1.0;
    }
  }

  /** Refreshing twice at the same energy radius gives the same outline as
      refreshing once, except for the jitter: the node count, positions and
      normals are those of the first refresh. */
  lemma RefreshTwice(nodes: seq<CoreNode>, center: Vec, energyRadius: real,
                     m: MathOps, rand: nat -> real, s1: nat, s2: nat)
    requires |nodes| == 0 || |nodes| == CoreQuality
    ensures var once := RefreshedCore(nodes, center, energyRadius, m, rand, s1);
      var twice := RefreshedCore(once, center, energyRadius, m, rand, s2);
      |twice| == |once| == CoreQuality &&
      forall i :: 0 <= i < CoreQuality ==>
        twice[i] == once[i].(offset := Jitter(rand, s2 + 2 * i))
  {
  }

  /** One easing step of a core node toward the player's position plus its
      normal plus its jitter: the gap to that target shrinks to 0.8 of itself. */
  function EaseNode(n: CoreNode, center: Vec): (r: CoreNode)
    ensures r.normal == n.normal && r.offset == n.offset && r.normalTarget == n.normalTarget
    ensures var t := Add(Add(center, n.normal), n.offset);
      t.x - r.position.x == (t.x - n.position.x) * 0.8 &&
      t.y - r.position.y == (t.y - n.position.y) * 0.8
  {
    var t := Add(Add(center, n.normal), n.offset);
    n.(position := Vec(Ease(n.position.x, t.x, 0.2), Ease(n.position.y, t.y, 0.2)))
  }

  /** The outline after the tick's easing loop over `coreNodes.concat()`
      with node 0 pushed once more: node 0 is visited twice. */
  function EasedCore(nodes: seq<CoreNode>, center: Vec): (r: seq<CoreNode>)
    ensures |r| == |nodes|
  {
    seq(|nodes|, i requires 0 <= i < |nodes| =>
      if i == 0 then EaseNode(EaseNode(nodes[0], center), center) else EaseNode(nodes[i], center))
  }

  /** The easing loop keeps the node count, normals and jitter; every node
      but the first closes 20% of the gap to its target, and the first,
      eased twice, closes 36%. */
  lemma EasedCoreGaps(nodes: seq<CoreNode>, center: Vec)
    ensures var r := EasedCore(nodes, center);
      |r| == |nodes| &&
      forall i :: 0 <= i < |nodes| ==>
        r[i].normal == nodes[i].normal && r[i].offset == nodes[i].offset &&
        var t := Add(Add(center, nodes[i].normal), nodes[i].offset);
        var k := if i == 0 then 0.64 else 0.8;
        t.x - r[i].position.x == (t.x - nodes[i].position.x) * k &&
        t.y - r[i].position.y == (t.y - nodes[i].position.y) * k
  {
    var r := EasedCore(nodes, center);
    if |nodes| > 0 {
      var once := EaseNode(nodes[0], center);
      var t := Add(Add(center, nodes[0].normal), nodes[0].offset);
      assert t == Add(Add(center, once.normal), once.offset);
      assert t.x - r[0].position.x == (t.x - once.position.x) * 0.8;
      assert t.y - r[0].position.y == (t.y - once.position.y) * 0.8;
    }
  }

  /** `player.angle` after one tick toward `target`: snapped to the target
      when they are more than PI apart, otherwise eased 20% of the way. The
      result never leaves the interval between the two. */
  function TurnToward(angle: real, target: real): (r: real)
    ensures Abs(target - angle) > PI ==> r == target
    ensures Abs(target - angle) <= PI ==> target - r == (target - angle) * 0.8
    ensures Min(angle, target) <= r <= Max(angle, target)
  {
    var a := if Abs(target - angle) > PI then target else angle;
    Ease(a, target, 0.2)
  }

  /** `energyRadiusTarget`: the energy fraction of 0.8 times the radius; for
      energy in [0, 100] it lies in [0, 0.8 * radius]. */
  function CoreRadiusTarget(energy: real, radius: real): (r: real)
    ensures 0.0 <= energy <= 100.0 && radius >= 0.0 ==> 0.0 <= r <= radius * 0.8
  {
    var f := energy / 100.0;
    var x := radius * 0.8;
    if 0.0 <= energy <= 100.0 && radius >= 0.0 then
      FractionOf(f, x);
      f * x
    else
      f * x
  }

  lemma FractionOf(f: real, x: real)
    requires 0.0 <= f <= 1.0 && x >= 0.0
    ensures 0.0 <= f * x <= x
  {
    if f > 0.0 && x > 0.0 {
      ProductSign(f, x);
      if f < 1.0 { ProductSign(1.0 - f, x); }
    }
  }

  /** The shield's contact point: `radius` along the facing from the player. */
  function ShieldPoint(center: Vec, angle: real, radius: real, m: MathOps): Vec
  {
    Vec(center.x + m.cos(angle) * radius, center.y + m.sin(angle) * radius)
  }

  /** The player: created once and kept across games. */
  class Player {
    var position: Vec
    var energy: real
    var energyRadius: real
    var energyRadiusTarget: real
    const radius: real := 60.0
    var angle: real
    var coreNodes: seq<CoreNode>
    /** The shield's contact point, which the tick recomputes. */
    var shield: Vec

    /** The core outline is either not yet built or has all its nodes. */
    ghost predicate CoreShaped()
      reads this`coreNodes
    {
      |coreNodes| == 0 || |coreNodes| == CoreQuality
    }

    constructor ()
      ensures position == Vec(0.0, 0.0) && energy == 30.0
      ensures energyRadius == 0.0 && energyRadiusTarget == 0.0 && angle == 0.0
      ensures coreNodes == [] && CoreShaped()
    {
      position := Vec(0.0, 0.0);
      energy := 30.0;
      energyRadius := 0.0;
      energyRadiusTarget := 0.0;
      angle := 0.0;
      coreNodes := [];
      shield := Vec(0.0, 0.0);
    }

    /** `Player.prototype.updateCore`, with the draws `rand(start)`,
        `rand(start + 1)`, ... standing for its `Math.random()` calls. */
    method UpdateCore(m: MathOps, rand: nat -> real, start: nat)
      requires CoreShaped()
      modifies this`coreNodes
      ensures coreNodes == RefreshedCore(old(coreNodes), position, energyRadius, m, rand, start)
    {
      if |coreNodes| == 0 {
        var i := 0;
        while i < CoreQuality
          invariant 0 <= i <= CoreQuality && |coreNodes| == i
          invariant forall k :: 0 <= k < i ==> coreNodes[k] == NewNode(position)
        {
          coreNodes := coreNodes + [CoreNode(position, Vec(0.0, 0.0), Vec(0.0, 0.0), Vec(0.0, 0.0))];
          i := i + 1;
        }
      }
      ghost var built := coreNodes;
      ghost var center := position;
      assert built == if old(coreNodes) == [] then seq(CoreQuality, i => NewNode(center)) else old(coreNodes);
      var i := 0;
      while i < CoreQuality
        invariant 0 <= i <= CoreQuality && |coreNodes| == CoreQuality
        invariant forall k :: i <= k < CoreQuality ==> coreNodes[k] == built[k]
        invariant forall k :: 0 <= k < i ==>
          coreNodes[k] == built[k].(normal := CoreNormal(k, energyRadius, m), offset := Jitter(rand, start + 2 * k))
      {
        var n := coreNodes[i];
        n := n.(normal := CoreNormal(i, energyRadius, m), offset := Jitter(rand, start + 2 * i));
        coreNodes := coreNodes[i := n];
        i := i + 1;
      }
      ghost var r := RefreshedCore(old(coreNodes), center, energyRadius, m, rand, start);
      assert forall k :: 0 <= k < CoreQuality ==> coreNodes[k] == r[k];
    }

    /** The easing loop of the tick over the outline plus node 0 again. */
    method EaseCore()
      requires |coreNodes| == CoreQuality
      modifies this`coreNodes
      ensures coreNodes == EasedCore(old(coreNodes), position)
    {
      var looped := |coreNodes| + 1;
      var i := 0;
      while i < looped
        invariant 0 <= i <= looped && |coreNodes| == CoreQuality
        invariant forall k :: i <= k < CoreQuality ==> coreNodes[k] == old(coreNodes)[k]
        invariant forall k :: 1 <= k < i && k < CoreQuality ==>
          coreNodes[k] == EaseNode(old(coreNodes)[k], position)
        invariant 1 <= i < looped ==> coreNodes[0] == EaseNode(old(coreNodes)[0], position)
        invariant i == looped ==>
          coreNodes[0] == EaseNode(EaseNode(old(coreNodes)[0], position), position)
      {
        var k := if i < |coreNodes| then i else 0;
        coreNodes := coreNodes[k := EaseNode(coreNodes[k], position)];
        i := i + 1;
      }
    }
  }
}
