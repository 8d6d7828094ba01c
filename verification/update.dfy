/** `updateParticles`: one frame of the simulation. Every particle moves;
    burst particles count down, fade, slow and fall, and are removed once
    expired; ambient particles wrap at the viewport edges, pulse and drift;
    then the ambient population is topped up to the configured count. */
module Update {
  import opened Common
  import opened Particles

  /** How far past an edge an ambient particle may go before it wraps. */
  const Margin: real := 10.0

  /** The wrap rule for one coordinate: leaving past one margin re-enters
      at the opposite one; a coordinate within the margins is kept. */
  function Wrap(c: real, extent: NonNeg): (w: real)
    ensures -Margin <= w <= extent + Margin
    ensures -Margin <= c <= extent + Margin ==> w == c
    ensures c < -Margin ==> w == extent + Margin
    ensures extent + Margin < c ==> w == -Margin
  {
    var entered := if c < -Margin then extent + Margin else c;
    if extent + Margin < entered then -Margin else entered
  }

  /** The pulse factor `(sin(phase) + 1) * 0.5`. */
  function Pulse(s: Signed): (k: real)
    ensures 0.0 <= k <= 1.0
    ensures s == -1.0 <==> k == 0.0
    ensures s == 1.0 <==> k == 1.0
  {
    (s + 1.0) * 0.5
  }

  /** The frame rule for an ambient particle. */
  function StepAmbient(p: Particle, v: Viewport, sin: real -> Signed, cos: real -> Signed): (q: Particle)
    ensures q.kind == p.kind
    ensures -Margin <= q.x <= v.width + Margin && -Margin <= q.y <= v.height + Margin
    ensures -Margin <= p.x + p.speedX <= v.width + Margin ==> q.x == p.x + p.speedX
    ensures -Margin <= p.y + p.speedY <= v.height + Margin ==> q.y == p.y + p.speedY
    ensures 0.0 <= p.baseOpacity ==> p.baseOpacity <= q.opacity <= 1.25 * p.baseOpacity
    ensures Abs(q.speedX) <= 0.999 * (Abs(p.speedX) + 0.0008)
    ensures Abs(q.speedY) <= 0.999 * (Abs(p.speedY) + 0.001)
    ensures q.life == p.life + 0.5 && q.pulsePhase == p.pulsePhase + 0.03
    ensures q.rotation == p.rotation + p.rotationSpeed
    ensures q.baseOpacity == p.baseOpacity && q.rotationSpeed == p.rotationSpeed
    ensures q.size == p.size && q.color == p.color && q.shape == p.shape
  {
    var life := p.life + 0.5;
    var phase := p.pulsePhase + 0.03;
    var pulse := Pulse(sin(phase));
    Shrink(pulse, p.baseOpacity);
    p.(
      x := Wrap(p.x + p.speedX, v.width),
      y := Wrap(p.y + p.speedY, v.height),
      life := life,
      rotation := p.rotation + p.rotationSpeed,
      pulsePhase := phase,
      opacity := p.baseOpacity + pulse * p.baseOpacity * 0.25,
      speedX := (p.speedX + cos(life * 0.008) * 0.0008) * 0.999,
      speedY := (p.speedY + sin(life * 0.01) * 0.001) * 0.999)
  }

  /** The frame rule for a burst particle: count down, fade by 2%, slow by
      3%, fall by 0.1 per frame; no wrap. */
  function StepBurst(p: Particle): (q: Particle)
    requires p.kind.Burst?
    ensures q.kind == Burst(p.kind.burstLife - 1)
    ensures q.x == p.x + p.speedX && q.y == p.y + p.speedY
    ensures q.opacity == 0.98 * p.opacity
    ensures 0.0 <= p.opacity ==> 0.0 <= q.opacity <= p.opacity
    ensures q.speedX == 0.97 * p.speedX && q.speedY == 0.97 * p.speedY + 0.1
    ensures q.life == p.life + 0.5 && q.pulsePhase == p.pulsePhase + 0.03
    ensures q.rotation == p.rotation + p.rotationSpeed
    ensures q.rotationSpeed == p.rotationSpeed && q.size == p.size
    ensures q.baseOpacity == p.baseOpacity && q.color == p.color && q.shape == p.shape
  {
    p.(
      x := p.x + p.speedX,
      y := p.y + p.speedY,
      life := p.life + 0.5,
      rotation := p.rotation + p.rotationSpeed,
      pulsePhase := p.pulsePhase + 0.03,
      kind := Burst(p.kind.burstLife - 1),
      opacity := p.opacity * 0.98,
      speedX := p.speedX * 0.97,
      speedY := p.speedY * 0.97 + 0.1)
  }

  /** One particle through the frame filter: `None` when it is dropped. */
  function Step(p: Particle, v: Viewport, sin: real -> Signed, cos: real -> Signed): (r: Option<Particle>)
    ensures r.None? <==> p.kind.Burst? && p.kind.burstLife <= 1
    ensures r.Some? && p.kind.Ambient? ==> r.value.kind == Ambient
    ensures r.Some? && p.kind.Burst? ==> r.value.kind == Burst(p.kind.burstLife - 1)
  {
    if p.kind.Burst? then
      var q := StepBurst(p);
      if q.kind.burstLife > 0 then Some(q) else None
    else
      Some(StepAmbient(p, v, sin, cos))
  }

  /** What a particle looks like after the filter: an ambient one is within
      the wrap margins, a burst one has frames left. */
  predicate Settled(q: Particle, v: Viewport) {
    match q.kind
    case Ambient => -Margin <= q.x <= v.width + Margin && -Margin <= q.y <= v.height + Margin
    case Burst(n) => 0 < n
  }

  /** The pool after the filter of `updateParticles`, in order. */
  function Survivors(pool: seq<Particle>, v: Viewport, sin: real -> Signed, cos: real -> Signed): (r: seq<Particle>)
    ensures |r| <= |pool|
  {
    if |pool| == 0 then []
    else
      var init := Survivors(pool[..|pool| - 1], v, sin, cos);
      match Step(pool[|pool| - 1], v, sin, cos)
      case None => init
      case Some(q) => init + [q]
  }

  /** The filter never drops an ambient particle. */
  lemma {:induction false} SurvivorsKeepAmbient(pool: seq<Particle>, v: Viewport, sin: real -> Signed, cos: real -> Signed)
    ensures AmbientCount(Survivors(pool, v, sin, cos)) == AmbientCount(pool)
  {
    if |pool| > 0 {
      var init := pool[..|pool| - 1];
      var p := pool[|pool| - 1];
      SurvivorsKeepAmbient(init, v, sin, cos);
      match Step(p, v, sin, cos)
      case None =>
      case Some(q) => AmbientCountSnoc(Survivors(init, v, sin, cos), q);
    }
  }

  /** Every survivor is settled: ambient ones lie within the wrap margins,
      burst ones still have frames to live. */
  lemma {:induction false} SurvivorsSettled(pool: seq<Particle>, v: Viewport, sin: real -> Signed, cos: real -> Signed)
    ensures forall k :: 0 <= k < |Survivors(pool, v, sin, cos)| ==> Settled(Survivors(pool, v, sin, cos)[k], v)
  {
    if |pool| > 0 {
      SurvivorsSettled(pool[..|pool| - 1], v, sin, cos);
    }
  }

  /** `count` fresh ambient particles drawn from `rand(0)`, `rand(1)`, ... */
  function Fresh(c: ParticleConfig, v: Viewport, rand: nat -> Draw, count: nat): (s: seq<Particle>)
    requires Drawable(c)
    ensures |s| == count
  {
    seq(count, k requires 0 <= k => NewAmbient(c, v, rand(k)))
  }

  /** The `k`-th fresh particle is the one drawn from `rand(k)`. */
  lemma FreshAt(c: ParticleConfig, v: Viewport, rand: nat -> Draw, count: nat, k: nat)
    requires Drawable(c) && k < count
    ensures Fresh(c, v, rand, count)[k] == NewAmbient(c, v, rand(k))
  {
  }

  /** Every particle the replenishment pushes is ambient and starts inside
      the viewport. */
  lemma FreshAmbient(c: ParticleConfig, v: Viewport, rand: nat -> Draw, count: nat)
    requires Drawable(c)
    ensures forall k :: 0 <= k < count ==>
              var p := Fresh(c, v, rand, count)[k];
              p.kind == Ambient && 0.0 <= p.x <= v.width && 0.0 <= p.y <= v.height
  {
    forall k | 0 <= k < count
      ensures var p := Fresh(c, v, rand, count)[k];
              p.kind == Ambient && 0.0 <= p.x <= v.width && 0.0 <= p.y <= v.height
    {
      FreshAt(c, v, rand, count, k);
    }
  }

  /** One more fresh particle extends the fresh list by its next draw. */
  lemma FreshSnoc(c: ParticleConfig, v: Viewport, rand: nat -> Draw, n: nat)
    requires Drawable(c)
    ensures Fresh(c, v, rand, n + 1) == Fresh(c, v, rand, n) + [NewAmbient(c, v, rand(n))]
  {
    forall k | 0 <= k < n + 1
      ensures Fresh(c, v, rand, n + 1)[k] == (Fresh(c, v, rand, n) + [NewAmbient(c, v, rand(n))])[k]
    {
      FreshAt(c, v, rand, n + 1, k);
      if k < n {
        FreshAt(c, v, rand, n, k);
      }
    }
  }

  /** The filter pass of `updateParticles`, one particle at a time. */
  method FilterPass(pool: seq<Particle>, v: Viewport, sin: real -> Signed, cos: real -> Signed)
    returns (kept: seq<Particle>)
    ensures kept == Survivors(pool, v, sin, cos)
  {
    kept := [];
    var i := 0;
    while i < |pool|
      invariant 0 <= i <= |pool|
      invariant kept == Survivors(pool[..i], v, sin, cos)
    {
      assert pool[..i + 1][..i] == pool[..i];
      match Step(pool[i], v, sin, cos) {
        case None =>
        case Some(q) => kept := kept + [q];
      }
      i := i + 1;
    }
    assert pool[..|pool|] == pool;
  }

  /** How many fresh particles bring an ambient count `have` up to
      `target`: none when it is already there. */
  function Shortfall(target: int, have: nat): (n: nat)
    ensures have < target ==> have + n == target
    ensures target <= have ==> n == 0
  {
    if have < target then target - have else 0
  }

  /** Appending the shortfall of ambient particles brings the ambient count
      to the target, or leaves it where it was if it was already above. */
  lemma ReplenishedCount(kept: seq<Particle>, added: seq<Particle>, target: int)
    requires forall k :: 0 <= k < |added| ==> added[k].kind.Ambient?
    requires |added| == Shortfall(target, AmbientCount(kept))
    ensures AmbientCount(kept + added) == (if AmbientCount(kept) < target then target else AmbientCount(kept))
  {
    AmbientCountAppend(kept, added);
    AllAmbientCount(added);
  }

  /** The replenishment loop of `updateParticles`: fresh ambient particles
      are appended until the ambient count reaches `count`. */
  method Replenish(kept: seq<Particle>, c: ParticleConfig, v: Viewport, rand: nat -> Draw)
    returns (filled: seq<Particle>)
    requires Drawable(c)
    ensures AmbientCount(filled) == (if AmbientCount(kept) < c.count then c.count else AmbientCount(kept))
    ensures filled == kept + Fresh(c, v, rand, Shortfall(c.count, AmbientCount(kept)))
  {
    filled := kept;
    var added := 0;
    while AmbientCount(filled) < c.count
      invariant filled == kept + Fresh(c, v, rand, added)
      invariant AmbientCount(filled) == AmbientCount(kept) + added
      invariant AmbientCount(kept) + added <= (if AmbientCount(kept) < c.count then c.count else AmbientCount(kept))
      decreases c.count - AmbientCount(filled)
    {
      var p := NewAmbient(c, v, rand(added));
      AmbientCountSnoc(filled, p);
      FreshSnoc(c, v, rand, added);
      filled := filled + [p];
      added := added + 1;
    }
  }

  /** `updateParticles`: the surviving particles in order, then exactly as
      many fresh ambient particles as the ambient count falls short of the
      target. */
  method UpdateParticles(pool: seq<Particle>, c: ParticleConfig, v: Viewport,
                         sin: real -> Signed, cos: real -> Signed, rand: nat -> Draw)
    returns (next: seq<Particle>)
    requires Drawable(c)
    ensures var kept := Survivors(pool, v, sin, cos);
            next == kept + Fresh(c, v, rand, Shortfall(c.count, AmbientCount(kept)))
  {
    var kept := FilterPass(pool, v, sin, cos);
    next := Replenish(kept, c, v, rand);
  }

  /** After one frame the ambient count is the target, or the previous
      count if that was higher: it never ends below the target. */
  lemma UpdateReachesTarget(pool: seq<Particle>, c: ParticleConfig, v: Viewport,
                            sin: real -> Signed, cos: real -> Signed, rand: nat -> Draw)
    requires Drawable(c)
    ensures var kept := Survivors(pool, v, sin, cos);
            var r := kept + Fresh(c, v, rand, Shortfall(c.count, AmbientCount(kept)));
            AmbientCount(r) == (if AmbientCount(pool) < c.count then c.count else AmbientCount(pool)) &&
            c.count <= AmbientCount(r)
  {
    var kept := Survivors(pool, v, sin, cos);
    SurvivorsKeepAmbient(pool, v, sin, cos);
    var n := Shortfall(c.count, AmbientCount(kept));
    FreshAmbient(c, v, rand, n);
    ReplenishedCount(kept, Fresh(c, v, rand, n), c.count);
  }

  /** The fate of one particle after `k` frames (`None` once removed). */
  function Iterate(p: Particle, k: nat, v: Viewport, sin: real -> Signed, cos: real -> Signed): Option<Particle>
  {
    if k == 0 then Some(p)
    else
      match Iterate(p, k - 1, v, sin, cos)
      case None => None
      case Some(q) => Step(q, v, sin, cos)
  }

  /** A burst particle with countdown `n` is present for the first `n - 1`
      frames, with countdown `n - k` after frame `k`, and gone from frame
      `n` on. */
  lemma {:induction false} BurstLifetime(p: Particle, k: nat, v: Viewport, sin: real -> Signed, cos: real -> Signed)
    requires p.kind.Burst?
    ensures 0 < k ==> (Iterate(p, k, v, sin, cos).Some? <==> k < p.kind.burstLife)
    ensures Iterate(p, k, v, sin, cos).Some? ==> Iterate(p, k, v, sin, cos).value.kind == Burst(p.kind.burstLife - k)
  {
    if k > 0 {
      BurstLifetime(p, k - 1, v, sin, cos);
    }
  }

  /** A burst spawned by a click, with countdown 60, survives 59 frames and
      is gone after the 60th. */
  lemma ClickBurstLasts60Frames(p: Particle, v: Viewport, sin: real -> Signed, cos: real -> Signed)
    requires p.kind == Burst(60)
    ensures Iterate(p, 59, v, sin, cos).Some?
    ensures Iterate(p, 60, v, sin, cos).None?
  {
    BurstLifetime(p, 59, v, sin, cos);
    BurstLifetime(p, 60, v, sin, cos);
  }

  /** An ambient particle is never removed and never becomes a burst. */
  lemma {:induction false} AmbientPersists(p: Particle, k: nat, v: Viewport, sin: real -> Signed, cos: real -> Signed)
    requires p.kind.Ambient?
    ensures Iterate(p, k, v, sin, cos).Some? && Iterate(p, k, v, sin, cos).value.kind == Ambient
  {
    if k > 0 {
      AmbientPersists(p, k - 1, v, sin, cos);
    }
  }

  /** A pool of ambient particles loses none of them to the filter. */
  lemma {:induction false} AllAmbientSurvive(pool: seq<Particle>, v: Viewport, sin: real -> Signed, cos: real -> Signed)
    requires forall k :: 0 <= k < |pool| ==> pool[k].kind.Ambient?
    ensures |Survivors(pool, v, sin, cos)| == |pool|
    ensures AmbientCount(Survivors(pool, v, sin, cos)) == |pool|
  {
    SurvivorsKeepAmbient(pool, v, sin, cos);
    AllAmbientCount(pool);
  }

  /** After `createParticles` for `n` and one frame, the pool holds exactly
      `n` ambient particles (none when `n` is not positive): the filter
      keeps them all, and the replenishment then has nothing to add. */
  lemma RecreatedPoolKeepsCount(c: ParticleConfig, v: Viewport, rand: nat -> Draw,
                                sin: real -> Signed, cos: real -> Signed, more: nat -> Draw)
    requires Drawable(c)
    ensures var kept := Survivors(CreateParticles(c, v, rand), v, sin, cos);
            AmbientCount(kept) == |kept| == (if c.count > 0 then c.count else 0)
    ensures var kept := Survivors(CreateParticles(c, v, rand), v, sin, cos);
            kept + Fresh(c, v, more, Shortfall(c.count, AmbientCount(kept))) == kept
  {
    var kept := Survivors(CreateParticles(c, v, rand), v, sin, cos);
    AllAmbientSurvive(CreateParticles(c, v, rand), v, sin, cos);
    assert Shortfall(c.count, AmbientCount(kept)) == 0;
    assert Fresh(c, v, more, 0) == [];
    assert kept + [] == kept;
  }
}
