/** The pointer handlers: `mousemove` pulls nearby particles toward the
    pointer and brightens them, and damps every particle's spin; `click`
    appends a ring of six burst particles at the click point. */
module Interaction {
  import opened Common
  import opened Particles

  /** The pointer's reach, in pixels. */
  const Reach: real := 110.0

  /** The brightness cap near the pointer. */
  const NearOpacityCap: real := 0.65

  /** The spin damping applied on every pointer move. */
  const SpinDamping: real := 0.95

  /** The squared distance from a particle to the pointer. */
  function PointerDistance2(p: Particle, mx: real, my: real): (d2: real)
    ensures 0.0 <= d2
  {
    SquaredLength(mx - p.x, my - p.y)
  }

  /** A particle the pointer acts on: strictly closer than the reach,
      stated on squared distances. */
  predicate Near(p: Particle, mx: real, my: real) {
    PointerDistance2(p, mx, my) < Reach * Reach
  }

  /** `(110 - distance) / 110`: one at the pointer, zero at the reach. */
  function Proximity(d: real): (k: real)
    requires 0.0 <= d < Reach
    ensures 0.0 < k <= 1.0
  {
    (Reach - d) / Reach
  }

  /** The attraction factor `(110 - distance) / 110 * 0.002`. */
  function Attraction(d: real): (f: real)
    requires 0.0 <= d < Reach
    ensures 0.0 < f <= 0.002
  {
    Proximity(d) * 0.002
  }

  /** A closer particle is pulled harder. */
  lemma AttractionDecreasing(d1: real, d2: real)
    requires 0.0 <= d1 < d2 < Reach
    ensures Attraction(d2) < Attraction(d1)
  {
  }

  /** The `mousemove` rule for one particle, with `root` standing for
      `Math.sqrt`. */
  function PointerEffect(p: Particle, mx: real, my: real, root: real -> real): (q: Particle)
    requires IsSqrt(root)
    ensures q.x == p.x && q.y == p.y
    ensures q.rotationSpeed == SpinDamping * p.rotationSpeed
    ensures q.kind == p.kind && q.baseOpacity == p.baseOpacity && q.size == p.size
    ensures q.life == p.life && q.pulsePhase == p.pulsePhase && q.rotation == p.rotation
    ensures q.color == p.color && q.shape == p.shape
    ensures !Near(p, mx, my) ==>
              q.speedX == p.speedX && q.speedY == p.speedY && q.opacity == p.opacity
    ensures Near(p, mx, my) ==>
              var d := root(PointerDistance2(p, mx, my));
              0.0 <= d < Reach &&
              q.speedX == p.speedX + (mx - p.x) * Attraction(d) &&
              q.speedY == p.speedY + (my - p.y) * Attraction(d)
    ensures Near(p, mx, my) ==> q.opacity <= NearOpacityCap
    ensures Near(p, mx, my) && 0.0 <= p.baseOpacity ==> Min(p.baseOpacity, NearOpacityCap) <= q.opacity
  {
    var dx := mx - p.x;
    var dy := my - p.y;
    var d := root(SquaredLength(dx, dy));
    RootBelow(root, SquaredLength(dx, dy), Reach);
    var pulled :=
      if d < Reach then
        var boost := p.baseOpacity * (1.0 + Proximity(d) * 0.6);
        assert 0.0 <= p.baseOpacity ==> p.baseOpacity <= boost by {
          if 0.0 <= p.baseOpacity {
            ProductSign(p.baseOpacity, Proximity(d) * 0.6);
          }
        }
        p.(speedX := p.speedX + dx * Attraction(d),
           speedY := p.speedY + dy * Attraction(d),
           opacity := Min(boost, NearOpacityCap))
      else p;
    pulled.(rotationSpeed := pulled.rotationSpeed * SpinDamping)
  }

  /** The `mousemove` handler over the whole pool. */
  function PointerMove(pool: seq<Particle>, mx: real, my: real, root: real -> real): (r: seq<Particle>)
    requires IsSqrt(root)
    ensures |r| == |pool|
    ensures forall i :: 0 <= i < |pool| ==> r[i] == PointerEffect(pool[i], mx, my, root)
    ensures AmbientCount(r) == AmbientCount(pool)
  {
    var r := seq(|pool|, i requires 0 <= i < |pool| => PointerEffect(pool[i], mx, my, root));
    SameKindsSameCount(r, pool);
    r
  }

  /** The number of particles one click spawns. */
  const BurstSize: nat := 6

  /** The countdown a click burst starts with, in frames. */
  const BurstFrames: int := 60

  /** The four `Math.random()` draws of one burst particle. */
  datatype BurstDraw = BurstDraw(speed: Unit01, size: Unit01, color: Unit01, pulsePhase: Unit01)

  /** The launch angle of the `i`-th burst particle: `i / 6` of a turn. */
  function ClickAngle(i: nat): (a: real)
    ensures 0.0 <= a
    ensures i < BurstSize ==> a < 2.0 * Pi
  {
    (i as real / BurstSize as real) * Pi * 2.0
  }

  /** The six launch angles start at zero, are a sixth of a turn apart, and
      stay within one turn. */
  lemma ClickAnglesEvenlySpaced(i: nat)
    requires i < BurstSize
    ensures ClickAngle(0) == 0.0
    ensures ClickAngle(i + 1) - ClickAngle(i) == Pi / 3.0
    ensures 0.0 <= ClickAngle(i) < 2.0 * Pi
  {
  }

  /** The launch speed `1 + Math.random() * 2`. */
  function BurstSpeed(r: Unit01): (s: real)
    ensures 1.0 <= s < 3.0
  {
    1.0 + Scale(r, 2.0)
  }

  /** The fixed part of a fresh click burst particle. */
  predicate FreshBurst(p: Particle, cx: real, cy: real, c: ParticleConfig) {
    && p.x == cx && p.y == cy
    && p.kind == Burst(BurstFrames)
    && p.opacity == 0.5 && p.baseOpacity == 0.5
    && p.rotation == 0.0 && p.rotationSpeed == 0.0
    && p.shape == Circle && p.life == 0.0
    && p.color in c.colors
    && 1.0 <= p.size < 2.5
    && 0.0 <= p.pulsePhase < 2.0 * Pi
  }

  /** The `i`-th particle of a click burst. */
  function NewBurst(c: ParticleConfig, cx: real, cy: real, i: nat, d: BurstDraw,
                    sin: real -> Signed, cos: real -> Signed): (p: Particle)
    requires 0 < |c.colors|
    ensures FreshBurst(p, cx, cy, c)
    ensures p.speedX == cos(ClickAngle(i)) * BurstSpeed(d.speed)
    ensures p.speedY == sin(ClickAngle(i)) * BurstSpeed(d.speed)
    ensures Abs(p.speedX) < 3.0 && Abs(p.speedY) < 3.0
  {
    var angle := ClickAngle(i);
    var speed := BurstSpeed(d.speed);
    SignedScale(cos(angle), speed);
    SignedScale(sin(angle), speed);
    Particle(
      x := cx, y := cy,
      size := Scale(d.size, 1.5) + 1.0,
      speedX := cos(angle) * speed,
      speedY := sin(angle) * speed,
      opacity := 0.5,
      life := 0.0,
      color := Pick(c.colors, d.color),
      shape := Circle,
      rotation := 0.0, rotationSpeed := 0.0,
      pulsePhase := Turn(d.pulsePhase),
      baseOpacity := 0.5,
      kind := Burst(BurstFrames))
  }

  /** The first `n` particles of a click burst, in launch order. */
  function Spawned(c: ParticleConfig, cx: real, cy: real, sin: real -> Signed, cos: real -> Signed,
                   rand: nat -> BurstDraw, n: nat): (s: seq<Particle>)
    requires 0 < |c.colors|
    ensures |s| == n
  {
    if n == 0 then [] else Spawned(c, cx, cy, sin, cos, rand, n - 1) + [NewBurst(c, cx, cy, n - 1, rand(n - 1), sin, cos)]
  }

  /** The `k`-th spawned particle is the `k`-th burst particle, whatever
      the number spawned after it. */
  lemma {:induction false} SpawnedAt(c: ParticleConfig, cx: real, cy: real, sin: real -> Signed, cos: real -> Signed,
                                     rand: nat -> BurstDraw, n: nat, k: nat)
    requires 0 < |c.colors| && k < n
    ensures Spawned(c, cx, cy, sin, cos, rand, n)[k] == NewBurst(c, cx, cy, k, rand(k), sin, cos)
  {
    if k < n - 1 {
      SpawnedAt(c, cx, cy, sin, cos, rand, n - 1, k);
    }
  }

  /** The `click` handler: six burst particles are appended, the existing
      pool is left as it was. */
  method Click(pool: seq<Particle>, c: ParticleConfig, cx: real, cy: real,
               sin: real -> Signed, cos: real -> Signed, rand: nat -> BurstDraw)
    returns (grown: seq<Particle>)
    requires 0 < |c.colors|
    ensures |grown| == |pool| + BurstSize && grown[..|pool|] == pool
    ensures forall k :: |pool| <= k < |grown| ==>
              grown[k] == NewBurst(c, cx, cy, k - |pool|, rand(k - |pool|), sin, cos) &&
              FreshBurst(grown[k], cx, cy, c)
  {
    grown := pool;
    var i := 0;
    while i < BurstSize
      invariant 0 <= i <= BurstSize
      invariant grown == pool + Spawned(c, cx, cy, sin, cos, rand, i)
    {
      var p := NewBurst(c, cx, cy, i, rand(i), sin, cos);
      grown := grown + [p];
      i := i + 1;
    }
    assert grown[..|pool|] == pool;
    forall k | |pool| <= k < |grown|
      ensures grown[k] == NewBurst(c, cx, cy, k - |pool|, rand(k - |pool|), sin, cos)
    {
      SpawnedAt(c, cx, cy, sin, cos, rand, BurstSize, k - |pool|);
    }
  }

  /** Appending burst particles leaves the ambient count alone: a click
      never changes how many ambient particles the pool holds. */
  lemma {:induction false} BurstsKeepAmbientCount(pool: seq<Particle>, grown: seq<Particle>)
    requires |pool| <= |grown| && grown[..|pool|] == pool
    requires forall k :: |pool| <= k < |grown| ==> grown[k].kind.Burst?
    ensures AmbientCount(grown) == AmbientCount(pool)
  {
    var added := grown[|pool|..];
    assert grown == pool + added;
    AmbientCountAppend(pool, added);
    NoAmbientCount(added);
  }
}
