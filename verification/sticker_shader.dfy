/** The two GLSL programs of the sticker decals: the vertex shader that bends
    a flat sticker around the glass (a cylindrical curve along X plus a
    slight curve along Y), and the fragment shader that draws the texture as
    inverted grey with a blue glow while a file hovers over it. Vectors are
    over reals; `sin`/`cos` come from a `Trig` parameter. */
module StickerShader {
  import opened Geometry

  datatype Vec2 = Vec2(x: real, y: real)

  /** The curve uniforms. */
  datatype Curve = Curve(radius: real, strength: real, enabled: real, yRadius: real, yStrength: real)

  /** The front sticker curves; the bottom sticker is created with the curve
      switched off. */
  const FrontCurve: Curve := Curve(radius := 28.0, strength := 0.85, enabled := 1.0, yRadius := 423.0, yStrength := 2.0)
  const BottomCurve: Curve := Curve(radius := 28.0, strength := 0.85, enabled := 0.0, yRadius := 423.0, yStrength := 2.0)

  /** What the vertex shader writes: the varyings and the bent position. */
  datatype VertexOut = VertexOut(vUv: Vec2, vPosition: Vec3, pos: Vec3)

  /** The curve is defined when it is off, or when both radii can be divided by. */
  predicate Defined(c: Curve)
  {
    c.enabled > 0.5 ==> c.radius != 0.0 && c.yRadius != 0.0
  }

  /** `newX`: the X bend wraps x onto a circle of the given radius. */
  function BentX(trig: Trig, c: Curve, x: real): real
    requires c.radius != 0.0
  {
    c.radius * trig.sin(x / c.radius * c.strength)
  }

  /** `newZ`: how far the X bend pushes the vertex back. */
  function XBendDepth(trig: Trig, c: Curve, x: real): real
    requires c.radius != 0.0
  {
    -c.radius * (1.0 - trig.cos(x / c.radius * c.strength))
  }

  /** `yNewZ`: how far the Y bend pushes the vertex back. */
  function YBendDepth(trig: Trig, c: Curve, y: real): real
    requires c.yRadius != 0.0
  {
    -c.yRadius * (1.0 - trig.cos(y / c.yRadius * c.yStrength))
  }

  /** The body of the vertex shader's `main`, before the projection. */
  function Bend(trig: Trig, c: Curve, position: Vec3, uv: Vec2): VertexOut
    requires Defined(c)
  {
    if c.enabled > 0.5 then
      VertexOut(uv, position, Vec3(BentX(trig, c, position.x), position.y,
                                   position.z + XBendDepth(trig, c, position.x) + YBendDepth(trig, c, position.y)))
    else
      VertexOut(uv, position, position)
  }

  /** Neither bend moves a vertex on its axis of symmetry. */
  lemma BendsVanishAtZero(trig: Trig, c: Curve)
    requires Anchored(trig) && Defined(c) && c.enabled > 0.5
    ensures BentX(trig, c, 0.0) == 0.0
    ensures XBendDepth(trig, c, 0.0) == 0.0 && YBendDepth(trig, c, 0.0) == 0.0
  {
    assert 0.0 / c.radius * c.strength == 0.0;
    assert 0.0 / c.yRadius * c.yStrength == 0.0;
  }

  /** The varyings pass the vertex through, and the height is never bent. */
  lemma BendKeepsVaryingsAndHeight(trig: Trig, c: Curve, position: Vec3, uv: Vec2)
    requires Defined(c)
    ensures Bend(trig, c, position, uv).vUv == uv
    ensures Bend(trig, c, position, uv).vPosition == position
    ensures Bend(trig, c, position, uv).pos.y == position.y
  {
  }

  /** With the curve off the vertex is not moved; the bottom sticker's
      curve is off, the front sticker's on. */
  lemma DisabledIsIdentity(trig: Trig, c: Curve, position: Vec3, uv: Vec2)
    requires c.enabled <= 0.5
    ensures Bend(trig, c, position, uv).pos == position
    ensures Bend(trig, BottomCurve, position, uv).pos == position
    ensures FrontCurve.enabled > 0.5
  {
  }

  /** The two bends are separable: the new x depends on x alone, and the
      depth offset is the X bend of (x, 0, 0) plus the Y bend of (0, y, 0). */
  lemma BendSeparates(trig: Trig, c: Curve, position: Vec3, uv: Vec2)
    requires Anchored(trig) && Defined(c)
    ensures var p := Bend(trig, c, position, uv).pos;
      var px := Bend(trig, c, Vec3(position.x, 0.0, 0.0), uv).pos;
      var py := Bend(trig, c, Vec3(0.0, position.y, 0.0), uv).pos;
      p.x == px.x && p.z == position.z + px.z + py.z
  {
    if c.enabled > 0.5 {
      BendsVanishAtZero(trig, c);
    }
  }

  /** With no strength along X the new x is radius * sin 0 = 0: the sticker
      collapses onto x = 0 rather than staying flat, and only the Y bend
      moves z. */
  lemma ZeroStrengthCollapsesX(trig: Trig, c: Curve, position: Vec3, uv: Vec2)
    requires Anchored(trig) && Defined(c) && c.enabled > 0.5 && c.strength == 0.0
    ensures Bend(trig, c, position, uv).pos.x == 0.0
    ensures Bend(trig, c, position, uv).pos.z == position.z + YBendDepth(trig, c, position.y)
  {
    assert position.x / c.radius * c.strength == 0.0;
  }

  /** With neither strength set the curve is flat in depth. */
  lemma ZeroStrengthsKeepDepth(trig: Trig, c: Curve, position: Vec3, uv: Vec2)
    requires Anchored(trig) && Defined(c) && c.strength == 0.0 && c.yStrength == 0.0
    ensures Bend(trig, c, position, uv).pos.z == position.z
  {
    if c.enabled > 0.5 {
      assert position.x / c.radius * c.strength == 0.0;
      assert position.y / c.yRadius * c.yStrength == 0.0;
    }
  }

  // ---------------------------------------------------------------------------
  // Fragment shader

  datatype Rgba = Rgba(r: real, g: real, b: real, a: real)

  /** `vec3(0.3, 0.6, 1.0)`. */
  const GlowColor: Vec3 := Vec3(0.3, 0.6, 1.0)

  /** GLSL's `mix(x, y, a) = x * (1 - a) + y * a`. */
  function Mix(x: real, y: real, a: real): real
  {
    x * (1.0 - a) + y * a
  }

  /** Luminance: `dot(rgb, vec3(0.299, 0.587, 0.114))`. */
  function Gray(t: Rgba): real
  {
    0.299 * t.r + 0.587 * t.g + 0.114 * t.b
  }

  /** The body of the fragment shader's `main`, given the sampled texel. */
  function Shade(texel: Rgba, glowIntensity: real): Rgba
  {
    var inverted := 1.0 - Gray(texel);
    Rgba(Mix(inverted, inverted + GlowColor.x * 0.5, glowIntensity),
         Mix(inverted, inverted + GlowColor.y * 0.5, glowIntensity),
         Mix(inverted, inverted + GlowColor.z * 0.5, glowIntensity),
         texel.a)
  }

  /** Each channel is the inverted grey plus glowIntensity times half the
      glow colour; alpha is the texture's. */
  lemma ShadeIsInvertedGreyPlusGlow(texel: Rgba, glowIntensity: real)
    ensures var c, inverted := Shade(texel, glowIntensity), 1.0 - Gray(texel);
      && c.r == inverted + glowIntensity * 0.15
      && c.g == inverted + glowIntensity * 0.3
      && c.b == inverted + glowIntensity * 0.5
      && c.a == texel.a
  {
  }

  /** Without glow the output is pure grey; a full glow adds
      (0.15, 0.3, 0.5). */
  lemma GlowOffIsGrey(texel: Rgba)
    ensures var c := Shade(texel, 0.0);
      c.r == c.g == c.b == 1.0 - Gray(texel)
    ensures var c, d := Shade(texel, 1.0), Shade(texel, 0.0);
      c.r == d.r + 0.15 && c.g == d.g + 0.3 && c.b == d.b + 0.5
  {
    ShadeIsInvertedGreyPlusGlow(texel, 0.0);
    ShadeIsInvertedGreyPlusGlow(texel, 1.0);
  }

  /** Darker texels come out lighter: the grey is inverted. */
  lemma ShadeInvertsLuminance(t1: Rgba, t2: Rgba, glowIntensity: real)
    requires Gray(t1) <= Gray(t2)
    ensures Shade(t2, glowIntensity).r <= Shade(t1, glowIntensity).r
    ensures Shade(t2, glowIntensity).g <= Shade(t1, glowIntensity).g
    ensures Shade(t2, glowIntensity).b <= Shade(t1, glowIntensity).b
  {
    ShadeIsInvertedGreyPlusGlow(t1, glowIntensity);
    ShadeIsInvertedGreyPlusGlow(t2, glowIntensity);
  }
}
