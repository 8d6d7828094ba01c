/** `drawConnections`: which unordered pairs of particles get a line, and
    with what opacity. The stroke itself is left to the host. */
module Connections {
  import opened Common
  import opened Particles

  /** A line between the particles at indices `i` and `j`. */
  datatype Line = Line(i: nat, j: nat, opacity: real)

  /** The squared distance between two particles. */
  function Distance2(p: Particle, q: Particle): (d2: real)
    ensures 0.0 <= d2
  {
    SquaredLength(p.x - q.x, p.y - q.y)
  }

  /** The line opacity at distance `d`: `(1 - d / D) * lineOpacity`. */
  function LineOpacity(d: real, c: ParticleConfig): (o: real)
    requires 0.0 < c.connectDistance
    ensures d == 0.0 ==> o == c.lineOpacity
    ensures d == c.connectDistance ==> o == 0.0
  {
    (1.0 - d / c.connectDistance) * c.lineOpacity
  }

  /** Below the threshold the opacity lies in (0, lineOpacity], and it is
      zero exactly when the configured line opacity is. */
  lemma LineOpacityRange(d: real, c: ParticleConfig)
    requires 0.0 <= d < c.connectDistance && 0.0 <= c.lineOpacity
    ensures 0.0 <= LineOpacity(d, c) <= c.lineOpacity
    ensures 0.0 < c.lineOpacity ==> 0.0 < LineOpacity(d, c)
    ensures d == 0.0 ==> LineOpacity(d, c) == c.lineOpacity
  {
    var k := 1.0 - d / c.connectDistance;
    assert 0.0 < k <= 1.0;
    assert LineOpacity(d, c) == k * c.lineOpacity;
    Shrink(k, c.lineOpacity);
    ProductSign(k, c.lineOpacity);
  }

  /** The opacity strictly decreases as the distance grows, and falls to
      zero at the threshold. */
  lemma LineOpacityDecreasing(d1: real, d2: real, c: ParticleConfig)
    requires 0.0 <= d1 < d2 <= c.connectDistance && 0.0 < c.lineOpacity
    ensures LineOpacity(d2, c) < LineOpacity(d1, c)
    ensures LineOpacity(c.connectDistance, c) == 0.0
  {
    var D := c.connectDistance;
    assert d1 / D < d2 / D;
    var g := d2 / D - d1 / D;
    assert LineOpacity(d1, c) - LineOpacity(d2, c) == g * c.lineOpacity;
    assert 0.0 < g * c.lineOpacity;
  }

  /** The pair at indices `i` and `j` is closer than the threshold. */
  predicate Close(pool: seq<Particle>, c: ParticleConfig, root: real -> real, i: nat, j: nat)
    requires i < |pool| && j < |pool|
  {
    root(Distance2(pool[i], pool[j])) < c.connectDistance
  }

  /** Line `l` is one `drawConnections` strokes: an ordered pair of pool
      indices closer than the threshold, at the opacity of its distance. */
  predicate Drawn(pool: seq<Particle>, c: ParticleConfig, root: real -> real, l: Line)
    requires 0.0 < c.connectDistance
  {
    && l.i < l.j < |pool|
    && Close(pool, c, root, l.i, l.j)
    && l.opacity == LineOpacity(root(Distance2(pool[l.i], pool[l.j])), c)
  }

  /** The order the nested loops visit pairs in. */
  predicate Precedes(a: Line, b: Line) {
    a.i < b.i || (a.i == b.i && a.j < b.j)
  }

  /** The lines are in strictly increasing visiting order, so no pair
      appears twice. */
  predicate Ascending(lines: seq<Line>) {
    forall k1, k2 :: 0 <= k1 < k2 < |lines| ==> Precedes(lines[k1], lines[k2])
  }

  /** Some line joins the particles at indices `i` and `j`. */
  predicate Covered(lines: seq<Line>, i: nat, j: nat) {
    exists k :: 0 <= k < |lines| && lines[k].i == i && lines[k].j == j
  }

  /** A pair gets a line exactly when its squared distance is below the
      squared threshold: the comparison needs no square root. */
  lemma CloseIffSquared(pool: seq<Particle>, c: ParticleConfig, root: real -> real, i: nat, j: nat)
    requires IsSqrt(root) && 0.0 < c.connectDistance
    requires i < |pool| && j < |pool|
    ensures Close(pool, c, root, i, j) <==>
            Distance2(pool[i], pool[j]) < c.connectDistance * c.connectDistance
  {
    RootBelow(root, Distance2(pool[i], pool[j]), c.connectDistance);
  }

  /** The inner loop of `drawConnections` for row `i`: the pairs `(i, j)`
      with `j > i`, in order of `j`, appended to the lines so far. */
  method ConnectRow(pool: seq<Particle>, c: ParticleConfig, root: real -> real, i: nat, before: seq<Line>)
    returns (lines: seq<Line>)
    requires 0.0 < c.connectDistance && i < |pool|
    requires forall k :: 0 <= k < |before| ==> Drawn(pool, c, root, before[k]) && before[k].i < i
    requires Ascending(before)
    ensures |before| <= |lines| && lines[..|before|] == before
    ensures forall k :: 0 <= k < |lines| ==> Drawn(pool, c, root, lines[k]) && lines[k].i <= i
    ensures Ascending(lines)
    ensures forall j :: i < j < |pool| ==> (Covered(lines, i, j) <==> Close(pool, c, root, i, j))
  {
    lines := before;
    var j := i + 1;
    while j < |pool|
      invariant i + 1 <= j <= |pool|
      invariant |before| <= |lines| && lines[..|before|] == before
      invariant forall k :: 0 <= k < |lines| ==>
                  Drawn(pool, c, root, lines[k]) &&
                  (lines[k].i < i || (lines[k].i == i && lines[k].j < j))
      invariant Ascending(lines)
      invariant forall j' :: i < j' < |pool| ==>
                  (Covered(lines, i, j') <==> j' < j && Close(pool, c, root, i, j'))
    {
      var d := root(Distance2(pool[i], pool[j]));
      if d < c.connectDistance {
        var l := Line(i, j, LineOpacity(d, c));
        assert Covered(lines + [l], i, j) by {
          assert (lines + [l])[|lines|] == l;
        }
        forall j' | i < j' < |pool| && Covered(lines, i, j')
          ensures Covered(lines + [l], i, j')
        {
          var k :| 0 <= k < |lines| && lines[k].i == i && lines[k].j == j';
          assert (lines + [l])[k] == lines[k];
        }
        lines := lines + [l];
      }
      j := j + 1;
    }
  }

  /** `drawConnections`: every pair `i < j` is considered once; the lines
      come out in visiting order, each drawn pair is close, and every close
      pair is drawn. */
  method DrawConnections(pool: seq<Particle>, c: ParticleConfig, root: real -> real)
    returns (lines: seq<Line>)
    requires 0.0 < c.connectDistance
    ensures forall k :: 0 <= k < |lines| ==> Drawn(pool, c, root, lines[k])
    ensures forall i, j :: 0 <= i < j < |pool| ==> (Covered(lines, i, j) <==> Close(pool, c, root, i, j))
    ensures Ascending(lines)
  {
    lines := [];
    var i := 0;
    while i < |pool|
      invariant 0 <= i <= |pool|
      invariant forall k :: 0 <= k < |lines| ==> Drawn(pool, c, root, lines[k]) && lines[k].i < i
      invariant Ascending(lines)
      invariant forall i', j' :: 0 <= i' < j' < |pool| ==>
                  (Covered(lines, i', j') <==> i' < i && Close(pool, c, root, i', j'))
    {
      var before := lines;
      lines := ConnectRow(pool, c, root, i, lines);
      forall i', j' | 0 <= i' < i && i' < j' < |pool| && Covered(before, i', j')
        ensures Covered(lines, i', j')
      {
        var k :| 0 <= k < |before| && before[k].i == i' && before[k].j == j';
        assert lines[k] == before[k];
      }
      i := i + 1;
    }
  }
}
