/** The part of three.js's BufferGeometry that the engravers drive: a buffer
    of vertex positions transformed in place by `translate`, `scale` and
    `rotateX`, and `computeBoundingBox`. Coordinates are reals. */
module Geometry {
  import opened Common

  datatype Vec3 = Vec3(x: real, y: real, z: real)

  /** An axis-aligned box; `WellFormed` when `lo` is below `hi` on every axis. */
  datatype Box = Box(lo: Vec3, hi: Vec3)

  function Min(a: real, b: real): real { if a <= b then a else b }
  function Max(a: real, b: real): real { if a <= b then b else a }

  function MinV(a: Vec3, b: Vec3): Vec3 { Vec3(Min(a.x, b.x), Min(a.y, b.y), Min(a.z, b.z)) }
  function MaxV(a: Vec3, b: Vec3): Vec3 { Vec3(Max(a.x, b.x), Max(a.y, b.y), Max(a.z, b.z)) }

  predicate WellFormed(b: Box)
  {
    b.lo.x <= b.hi.x && b.lo.y <= b.hi.y && b.lo.z <= b.hi.z
  }

  predicate Contains(b: Box, p: Vec3)
  {
    b.lo.x <= p.x <= b.hi.x && b.lo.y <= p.y <= b.hi.y && b.lo.z <= p.z <= b.hi.z
  }

  /** The smallest box holding `b` and `p`. */
  function Extend(b: Box, p: Vec3): Box
  {
    Box(MinV(b.lo, p), MaxV(b.hi, p))
  }

  /** `computeBoundingBox`: no box for an empty buffer, otherwise the smallest
      box holding every vertex (built by extending with one vertex at a time). */
  function Bounds(ps: seq<Vec3>): (r: Option<Box>)
    ensures r.None? <==> ps == []
    ensures r.Some? ==> WellFormed(r.value)
  {
    if ps == [] then None
    else if |ps| == 1 then Some(Box(ps[0], ps[0]))
    else Some(Extend(Bounds(ps[..|ps| - 1]).value, ps[|ps| - 1]))
  }

  /** The box holds every vertex. */
  lemma {:induction false} BoundsContain(ps: seq<Vec3>)
    requires ps != []
    ensures forall i :: 0 <= i < |ps| ==> Contains(Bounds(ps).value, ps[i])
  {
    if |ps| > 1 {
      var init := ps[..|ps| - 1];
      BoundsContain(init);
      forall i | 0 <= i < |ps| ensures Contains(Bounds(ps).value, ps[i]) {
        if i < |init| {
          assert init[i] == ps[i];
        }
      }
    }
  }

  /** The box is tight: each of its six faces touches some vertex. */
  lemma {:induction false} BoundsAttained(ps: seq<Vec3>)
    requires ps != []
    ensures var b := Bounds(ps).value;
      && (exists i :: 0 <= i < |ps| && ps[i].x == b.lo.x)
      && (exists i :: 0 <= i < |ps| && ps[i].x == b.hi.x)
      && (exists i :: 0 <= i < |ps| && ps[i].y == b.lo.y)
      && (exists i :: 0 <= i < |ps| && ps[i].y == b.hi.y)
      && (exists i :: 0 <= i < |ps| && ps[i].z == b.lo.z)
      && (exists i :: 0 <= i < |ps| && ps[i].z == b.hi.z)
  {
    if |ps| == 1 {
      assert ps[0] == ps[0];
    } else {
      var init := ps[..|ps| - 1];
      var n := |ps| - 1;
      BoundsAttained(init);
      var b := Bounds(ps).value;
      var c := Bounds(init).value;
      assert b == Extend(c, ps[n]);
      forall i | 0 <= i < |init| ensures init[i] == ps[i] { }
      if b.lo.x == ps[n].x { assert ps[n].x == b.lo.x; } else { var i :| 0 <= i < |init| && init[i].x == c.lo.x; assert ps[i].x == b.lo.x; }
      if b.hi.x == ps[n].x { assert ps[n].x == b.hi.x; } else { var i :| 0 <= i < |init| && init[i].x == c.hi.x; assert ps[i].x == b.hi.x; }
      if b.lo.y == ps[n].y { assert ps[n].y == b.lo.y; } else { var i :| 0 <= i < |init| && init[i].y == c.lo.y; assert ps[i].y == b.lo.y; }
      if b.hi.y == ps[n].y { assert ps[n].y == b.hi.y; } else { var i :| 0 <= i < |init| && init[i].y == c.hi.y; assert ps[i].y == b.hi.y; }
      if b.lo.z == ps[n].z { assert ps[n].z == b.lo.z; } else { var i :| 0 <= i < |init| && init[i].z == c.lo.z; assert ps[i].z == b.lo.z; }
      if b.hi.z == ps[n].z { assert ps[n].z == b.hi.z; } else { var i :| 0 <= i < |init| && init[i].z == c.hi.z; assert ps[i].z == b.hi.z; }
    }
  }

  // ---------------------------------------------------------------------------
  // Trigonometry

  /** `Math.sin`/`Math.cos` (or GLSL's `sin`/`cos`), as parameters: nothing
      is assumed of them beyond what `Anchored` states where it is required. */
  datatype Trig = Trig(sin: real -> real, cos: real -> real)

  predicate Anchored(trig: Trig)
  {
    trig.sin(0.0) == 0.0 && trig.cos(0.0) == 1.0
  }

  /** A rotation by theta about the Z axis. */
  function RotateZ(trig: Trig, theta: real, p: Vec3): Vec3
  {
    Vec3(trig.cos(theta) * p.x - trig.sin(theta) * p.y, trig.sin(theta) * p.x + trig.cos(theta) * p.y, p.z)
  }

  // ---------------------------------------------------------------------------
  // Transforms

  /** The matrices that `translate(x, y, z)`, `scale(x, y, z)` and
      `rotateX(Math.PI / 2)` build; the rotation is the exact quarter turn
      (y, z) -> (-z, y). */
  datatype Transform = Translation(d: Vec3) | Scaling(f: Vec3) | QuarterTurnX

  function Apply(t: Transform, p: Vec3): Vec3
  {
    match t
    case Translation(d) => Vec3(p.x + d.x, p.y + d.y, p.z + d.z)
    case Scaling(f) => Vec3(f.x * p.x, f.y * p.y, f.z * p.z)
    case QuarterTurnX => Vec3(p.x, -p.z, p.y)
  }

  /** Every vertex of the buffer run through `t`. */
  function Transformed(ps: seq<Vec3>, t: Transform): (r: seq<Vec3>)
    ensures |r| == |ps|
  {
    seq(|ps|, i requires 0 <= i < |ps| => Apply(t, ps[i]))
  }

  function Negated(d: Vec3): Vec3
  {
    Vec3(-d.x, -d.y, -d.z)
  }

  /** A translation is undone by the opposite one. */
  lemma TranslationUndone(ps: seq<Vec3>, d: Vec3)
    ensures Transformed(Transformed(ps, Translation(d)), Translation(Negated(d))) == ps
  {
    var r := Transformed(Transformed(ps, Translation(d)), Translation(Negated(d)));
    forall i | 0 <= i < |ps| ensures r[i] == ps[i] {
    }
  }

  /** Four quarter turns are the identity, so `rotateX(Math.PI / 2)` moves
      every vertex and keeps its distance from the X axis. */
  lemma QuarterTurnProperties(ps: seq<Vec3>)
    ensures var q := Transformed(ps, QuarterTurnX);
      forall i :: 0 <= i < |ps| ==> q[i].x == ps[i].x && q[i].y * q[i].y + q[i].z * q[i].z == ps[i].y * ps[i].y + ps[i].z * ps[i].z
    ensures Transformed(Transformed(Transformed(Transformed(ps, QuarterTurnX), QuarterTurnX), QuarterTurnX), QuarterTurnX) == ps
  {
    var r := Transformed(Transformed(Transformed(Transformed(ps, QuarterTurnX), QuarterTurnX), QuarterTurnX), QuarterTurnX);
    forall i | 0 <= i < |ps| ensures r[i] == ps[i] {
    }
  }

  /** The box moved by d. */
  function TranslatedBox(b: Box, d: Vec3): Box
  {
    Box(Apply(Translation(d), b.lo), Apply(Translation(d), b.hi))
  }

  /** Translating the buffer translates its bounding box. */
  lemma {:induction false} BoundsTranslated(ps: seq<Vec3>, d: Vec3)
    requires ps != []
    ensures Bounds(Transformed(ps, Translation(d))) == Some(TranslatedBox(Bounds(ps).value, d))
  {
    var q := Transformed(ps, Translation(d));
    if |ps| > 1 {
      var n := |ps| - 1;
      var init := ps[..n];
      assert q[..n] == Transformed(init, Translation(d));
      BoundsTranslated(init, d);
    }
  }

  /** `translate(-centerX, -centerY, 0)` by the centre of the XY bounding
      box; an empty buffer has no box and is left as it is. */
  function Centred(ps: seq<Vec3>): (r: seq<Vec3>)
    ensures |r| == |ps|
  {
    if ps == [] then []
    else
      var b := Bounds(ps).value;
      Transformed(ps, Translation(Vec3(-(b.hi.x + b.lo.x) / 2.0, -(b.hi.y + b.lo.y) / 2.0, 0.0)))
  }

  /** After centring, the box is symmetric about x = 0 and y = 0, keeps its
      extents, and z is untouched, vertex by vertex. */
  lemma CentredSymmetric(ps: seq<Vec3>)
    requires ps != []
    ensures var b, c := Bounds(ps).value, Bounds(Centred(ps)).value;
      && c.lo.x == -c.hi.x && c.lo.y == -c.hi.y
      && c.hi.x - c.lo.x == b.hi.x - b.lo.x && c.hi.y - c.lo.y == b.hi.y - b.lo.y
      && c.lo.z == b.lo.z && c.hi.z == b.hi.z
    ensures forall i :: 0 <= i < |ps| ==> Centred(ps)[i].z == ps[i].z
  {
    var b := Bounds(ps).value;
    var d := Vec3(-(b.hi.x + b.lo.x) / 2.0, -(b.hi.y + b.lo.y) / 2.0, 0.0);
    var q := Transformed(ps, Translation(d));
    assert Centred(ps) == q;
    BoundsTranslated(ps, d);
    var c := TranslatedBox(b, d);
    assert c.lo == Vec3(b.lo.x + d.x, b.lo.y + d.y, b.lo.z + 0.0);
    assert c.hi == Vec3(b.hi.x + d.x, b.hi.y + d.y, b.hi.z + 0.0);
    forall i | 0 <= i < |ps| ensures q[i].z == ps[i].z {
      assert q[i] == Apply(Translation(d), ps[i]);
    }
  }

  lemma MulIncreasing(f: real, a: real, b: real)
    requires f >= 0.0 && a <= b
    ensures f * a <= f * b
  {
    assert f * b - f * a == f * (b - a);
  }

  // ---------------------------------------------------------------------------
  // The geometry object

  /** A BufferGeometry: its position attribute is a fixed-size buffer that the
      transform methods overwrite vertex by vertex. */
  class BufferGeometry {
    const positions: array<Vec3>

    constructor (vertices: seq<Vec3>)
      ensures fresh(positions) && positions[..] == vertices
    {
      positions := new Vec3[|vertices|](i requires 0 <= i < |vertices| => vertices[i]);
    }

    /** `applyMatrix4`: every vertex replaced by its image. */
    method ApplyTransform(t: Transform)
      modifies positions
      ensures positions[..] == Transformed(old(positions[..]), t)
    {
      var i := 0;
      while i < positions.Length
        invariant 0 <= i <= positions.Length
        invariant forall k :: 0 <= k < i ==> positions[k] == Apply(t, old(positions[k]))
        invariant forall k :: i <= k < positions.Length ==> positions[k] == old(positions[k])
      {
        positions[i] := Apply(t, positions[i]);
        i := i + 1;
      }
    }

    method Translate(x: real, y: real, z: real)
      modifies positions
      ensures positions[..] == Transformed(old(positions[..]), Translation(Vec3(x, y, z)))
    {
      ApplyTransform(Translation(Vec3(x, y, z)));
    }

    method Scale(x: real, y: real, z: real)
      modifies positions
      ensures positions[..] == Transformed(old(positions[..]), Scaling(Vec3(x, y, z)))
    {
      ApplyTransform(Scaling(Vec3(x, y, z)));
    }

    /** `rotateX(Math.PI / 2)`. */
    method RotateXQuarterTurn()
      modifies positions
      ensures positions[..] == Transformed(old(positions[..]), QuarterTurnX)
    {
      ApplyTransform(QuarterTurnX);
    }

    /** `computeBoundingBox` followed by reading `boundingBox`; `None` stands
        for three.js's empty box of a buffer without vertices. */
    method ComputeBoundingBox() returns (box: Option<Box>)
      ensures box == Bounds(positions[..])
    {
      box := None;
      var i := 0;
      while i < positions.Length
        invariant 0 <= i <= positions.Length
        invariant box == Bounds(positions[..i])
      {
        var p := positions[i];
        assert positions[..i + 1][..i] == positions[..i];
        box := if box.None? then Some(Box(p, p)) else Some(Extend(box.value, p));
        i := i + 1;
      }
      assert positions[..i] == positions[..];
    }
  }
}
