/** The particle entity, the effect's configuration, and the creation of
    fresh ambient particles (`createParticles` and the body of the
    replenishment loop in `updateParticles`). */
module Particles {
  import opened Common

  datatype Shape = Circle | Square | Triangle

  /** Ambient particles live forever and wrap at the edges; burst particles
      carry a countdown of frames left to live. */
  datatype Kind = Ambient | Burst(burstLife: int)

  datatype Particle = Particle(
    x: real, y: real,
    size: real,
    speedX: real, speedY: real,
    opacity: real,
    life: real,
    color: string,
    shape: Shape,
    rotation: real, rotationSpeed: real,
    pulsePhase: real,
    baseOpacity: real,
    kind: Kind)

  datatype ParticleConfig = ParticleConfig(
    count: int,
    maxSize: real, minSize: real,
    speed: real,
    opacity: real,
    colors: seq<string>,
    shapes: seq<Shape>,
    connectDistance: real,
    lineOpacity: real)

  datatype TextureConfig = TextureConfig(intensity: real, frequency: real, octaves: int)

  datatype Config = Config(particles: ParticleConfig, texture: TextureConfig)

  const Palette: seq<string> := ["#374151", "#4b5563", "#6b7280"]

  /** The configuration the controller is constructed with. */
  const DefaultConfig: Config :=
    Config(
      ParticleConfig(32, 3.5, 1.5, 0.3, 0.5, Palette, [Circle], 110.0, 0.12),
      TextureConfig(0.015, 0.9, 2))

  /** A configuration new particles can be drawn from: a colour and a shape
      can always be picked. */
  predicate Drawable(c: ParticleConfig) {
    0 < |c.colors| && 0 < |c.shapes|
  }

  /** `window.innerWidth` and `window.innerHeight`. */
  datatype Viewport = Viewport(width: NonNeg, height: NonNeg)

  /** The thirteen `Math.random()` draws that randomise one ambient
      particle, one per field, in the order the fields are written. */
  datatype Draw = Draw(
    x: Unit01, y: Unit01, size: Unit01, speedX: Unit01, speedY: Unit01,
    opacity: Unit01, life: Unit01, color: Unit01, shape: Unit01,
    rotation: Unit01, rotationSpeed: Unit01, pulsePhase: Unit01,
    baseOpacity: Unit01)

  /** The base opacity rule shared by creation and `setIntensity`: a draw
      in the upper four fifths of the ceiling. */
  function BaseOpacity(ceiling: real, r: Unit01): (b: real)
    ensures 0.0 <= ceiling ==> 0.2 * ceiling <= b <= ceiling
  {
    ScaleDown(r, ceiling);
    r * ceiling * 0.8 + ceiling * 0.2
  }

  /** One freshly randomised ambient particle. */
  function NewAmbient(c: ParticleConfig, v: Viewport, d: Draw): (p: Particle)
    requires Drawable(c)
    ensures p.kind == Ambient
    ensures 0.0 <= p.x <= v.width && 0.0 <= p.y <= v.height
    ensures c.minSize <= c.maxSize ==> c.minSize <= p.size <= c.maxSize
    ensures 0.0 <= c.speed ==>
              -c.speed / 2.0 <= p.speedX <= c.speed / 2.0 &&
              -c.speed / 2.0 <= p.speedY <= c.speed / 2.0
    ensures 0.0 <= c.opacity ==>
              0.0 <= p.opacity <= c.opacity &&
              0.2 * c.opacity <= p.baseOpacity <= c.opacity
    ensures 0.0 <= p.life < 100.0
    ensures p.color in c.colors && p.shape in c.shapes
    ensures 0.0 <= p.rotation < 2.0 * Pi && 0.0 <= p.pulsePhase < 2.0 * Pi
    ensures -0.01 <= p.rotationSpeed < 0.01
  {
    Particle(
      x := Scale(d.x, v.width),
      y := Scale(d.y, v.height),
      size := Scale(d.size, c.maxSize - c.minSize) + c.minSize,
      speedX := Centered(d.speedX, c.speed),
      speedY := Centered(d.speedY, c.speed),
      opacity := Scale(d.opacity, c.opacity),
      life := Scale(d.life, 100.0),
      color := Pick(c.colors, d.color),
      shape := Pick(c.shapes, d.shape),
      rotation := Turn(d.rotation),
      rotationSpeed := Centered(d.rotationSpeed, 0.02),
      pulsePhase := Turn(d.pulsePhase),
      baseOpacity := BaseOpacity(c.opacity, d.baseOpacity),
      kind := Ambient)
  }

  /** The number of non-burst particles in a pool
      (`particles.filter(p => !p.isBurst).length`). */
  function AmbientCount(pool: seq<Particle>): (n: nat)
    ensures n <= |pool|
  {
    if |pool| == 0 then 0
    else AmbientCount(pool[..|pool| - 1]) + (if pool[|pool| - 1].kind.Ambient? then 1 else 0)
  }

  /** Appending one particle raises the ambient count by one exactly when
      that particle is ambient. */
  lemma AmbientCountSnoc(pool: seq<Particle>, p: Particle)
    ensures AmbientCount(pool + [p]) == AmbientCount(pool) + (if p.kind.Ambient? then 1 else 0)
  {
    assert (pool + [p])[..|pool|] == pool;
  }

  /** The ambient count of two pools put together is the sum of theirs. */
  lemma {:induction false} AmbientCountAppend(a: seq<Particle>, b: seq<Particle>)
    ensures AmbientCount(a + b) == AmbientCount(a) + AmbientCount(b)
    decreases |b|
  {
    if |b| == 0 {
      assert a + b == a;
    } else {
      var init := b[..|b| - 1];
      AmbientCountAppend(a, init);
      assert a + b == (a + init) + [b[|b| - 1]];
      AmbientCountSnoc(a + init, b[|b| - 1]);
      assert b == init + [b[|b| - 1]];
      AmbientCountSnoc(init, b[|b| - 1]);
    }
  }

  /** A pool with no burst particle counts all its particles as ambient. */
  lemma {:induction false} AllAmbientCount(pool: seq<Particle>)
    requires forall i :: 0 <= i < |pool| ==> pool[i].kind.Ambient?
    ensures AmbientCount(pool) == |pool|
  {
    if |pool| > 0 {
      AllAmbientCount(pool[..|pool| - 1]);
    }
  }

  /** A pool that holds only burst particles has ambient count 0. */
  lemma {:induction false} NoAmbientCount(pool: seq<Particle>)
    requires forall i :: 0 <= i < |pool| ==> pool[i].kind.Burst?
    ensures AmbientCount(pool) == 0
  {
    if |pool| > 0 {
      NoAmbientCount(pool[..|pool| - 1]);
    }
  }

  /** Two pools whose particles have the same kinds, position by position,
      have the same ambient count. */
  lemma {:induction false} SameKindsSameCount(a: seq<Particle>, b: seq<Particle>)
    requires |a| == |b|
    requires forall i :: 0 <= i < |a| ==> a[i].kind == b[i].kind
    ensures AmbientCount(a) == AmbientCount(b)
  {
    if |a| > 0 {
      SameKindsSameCount(a[..|a| - 1], b[..|b| - 1]);
    }
  }

  /** `createParticles`: the pool is discarded and refilled with `count`
      fresh ambient particles (none at all when `count` is not positive). */
  function CreateParticles(c: ParticleConfig, v: Viewport, rand: nat -> Draw): (pool: seq<Particle>)
    requires Drawable(c)
    ensures AmbientCount(pool) == |pool|
    ensures |pool| == (if c.count > 0 then c.count else 0)
    ensures forall i :: 0 <= i < |pool| ==> pool[i] == NewAmbient(c, v, rand(i))
  {
    var pool := seq(if c.count > 0 then c.count else 0, i requires 0 <= i => NewAmbient(c, v, rand(i)));
    assert forall i :: 0 <= i < |pool| ==> pool[i] == NewAmbient(c, v, rand(i));
    AllAmbientCount(pool);
    pool
  }
}
