/** `setIntensity`: the one brightness knob. The level is clamped to
    [0, 1], the opacity settings are rescaled from their defaults, and every
    ambient particle's base opacity is drawn afresh under the new ceiling. */
module Intensity {
  import opened Common
  import opened Particles
  import Update

  /** What `setIntensity` writes: the configuration, the canvas (absent
      when it was never created) and the pool. */
  datatype Adjusted = Adjusted(config: Config, canvas: Option<Canvas>, pool: seq<Particle>)

  /** The configuration at level `i`. */
  function Rescale(cfg: Config, i: real): (r: Config)
    ensures r.particles.opacity == 0.5 * i
    ensures r.particles.lineOpacity == 0.12 * i
    ensures r.texture.intensity == 0.015 * i
    ensures r.particles.(opacity := cfg.particles.opacity, lineOpacity := cfg.particles.lineOpacity) == cfg.particles
    ensures r.texture.(intensity := cfg.texture.intensity) == cfg.texture
  {
    Config(
      cfg.particles.(opacity := 0.5 * i, lineOpacity := 0.12 * i),
      cfg.texture.(intensity := 0.015 * i))
  }

  /** One particle under `setIntensity`: an ambient particle gets a fresh
      base opacity under `ceiling`, a burst particle is left alone. */
  function Reroll(p: Particle, ceiling: real, r: Unit01): (q: Particle)
    ensures p.kind.Burst? ==> q == p
    ensures q.(baseOpacity := p.baseOpacity) == p
    ensures p.kind.Ambient? && 0.0 <= ceiling ==> 0.2 * ceiling <= q.baseOpacity <= ceiling
  {
    if p.kind.Burst? then p else p.(baseOpacity := BaseOpacity(ceiling, r))
  }

  /** `setIntensity(level)`, with `rand(k)` the draw for the particle at
      index `k`. */
  function SetIntensity(cfg: Config, canvas: Option<Canvas>, pool: seq<Particle>,
                        level: real, rand: nat -> Unit01): (a: Adjusted)
    ensures var i := Clamp01(level);
            && a.config == Rescale(cfg, i)
            && (canvas.None? ==> a.canvas.None?)
            && (canvas.Some? ==> a.canvas == Some(canvas.value.(opacity := 0.7 * i)))
    ensures 0.0 <= a.config.particles.opacity <= 0.5
    ensures 0.0 <= a.config.particles.lineOpacity <= 0.12
    ensures 0.0 <= a.config.texture.intensity <= 0.015
    ensures |a.pool| == |pool|
    ensures forall k :: 0 <= k < |pool| && pool[k].kind.Burst? ==> a.pool[k] == pool[k]
    ensures forall k :: 0 <= k < |pool| ==> a.pool[k].(baseOpacity := pool[k].baseOpacity) == pool[k]
    ensures forall k :: 0 <= k < |pool| && pool[k].kind.Ambient? ==>
              0.2 * a.config.particles.opacity <= a.pool[k].baseOpacity <= a.config.particles.opacity
    ensures AmbientCount(a.pool) == AmbientCount(pool)
  {
    var i := Clamp01(level);
    var cfg' := Rescale(cfg, i);
    var canvas' := if canvas.Some? then Some(canvas.value.(opacity := 0.7 * i)) else None;
    var pool' := seq(|pool|, k requires 0 <= k < |pool| => Reroll(pool[k], cfg'.particles.opacity, rand(k)));
    assert forall k :: 0 <= k < |pool| ==> pool'[k] == Reroll(pool[k], cfg'.particles.opacity, rand(k));
    SameKindsSameCount(pool', pool);
    Adjusted(cfg', canvas', pool')
  }

  /** Level 1 restores the defaults (particle opacity 0.5, line opacity
      0.12, texture intensity 0.015, canvas opacity 0.7) after any earlier
      level, whatever canvas was there; any level above 1 acts as 1. */
  lemma FullIntensityRestoresDefaults(earlier: real, c: Canvas, pool: seq<Particle>,
                                      level: real, rand1: nat -> Unit01, rand2: nat -> Unit01)
    requires 1.0 <= level
    ensures var a := SetIntensity(DefaultConfig, Some(c), pool, earlier, rand1);
            var b := SetIntensity(a.config, a.canvas, a.pool, level, rand2);
            b.config == DefaultConfig && b.canvas == Some(c.(opacity := 0.7))
  {
  }

  /** Level 0 (or below) switches every opacity setting off, and every
      ambient particle's base opacity with it. */
  lemma ZeroIntensityDarkens(cfg: Config, canvas: Canvas, pool: seq<Particle>, level: real, rand: nat -> Unit01)
    requires level <= 0.0
    ensures var a := SetIntensity(cfg, Some(canvas), pool, level, rand);
            a.config.particles.opacity == 0.0 && a.config.particles.lineOpacity == 0.0 &&
            a.canvas == Some(canvas.(opacity := 0.0)) &&
            forall k :: 0 <= k < |pool| && pool[k].kind.Ambient? ==> a.pool[k].baseOpacity == 0.0
  {
  }

  /** Applying the same level twice leaves the same configuration and
      canvas as applying it once. */
  lemma SetIntensitySettles(cfg: Config, canvas: Option<Canvas>, pool: seq<Particle>,
                            level: real, rand1: nat -> Unit01, rand2: nat -> Unit01)
    ensures var a := SetIntensity(cfg, canvas, pool, level, rand1);
            var b := SetIntensity(a.config, a.canvas, a.pool, level, rand2);
            b.config == a.config && b.canvas == a.canvas
  {
  }

  /** After `setIntensity` and one frame, an ambient particle's drawn
      opacity lies between a fifth of the new ceiling and 1.25 times it:
      the pulse lifts it above the configured ceiling by up to a quarter. */
  lemma OpacityAfterNextFrame(cfg: Config, canvas: Option<Canvas>, pool: seq<Particle>,
                              level: real, rand: nat -> Unit01, k: nat, v: Viewport,
                              sin: real -> Signed, cos: real -> Signed)
    requires k < |pool| && pool[k].kind.Ambient?
    ensures var a := SetIntensity(cfg, canvas, pool, level, rand);
            var op := a.config.particles.opacity;
            var q := Update.StepAmbient(a.pool[k], v, sin, cos);
            0.2 * op <= q.opacity <= 1.25 * op
  {
    var a := SetIntensity(cfg, canvas, pool, level, rand);
    var op := a.config.particles.opacity;
    var b := a.pool[k].baseOpacity;
    assert 0.2 * op <= b <= op;
  }
}
