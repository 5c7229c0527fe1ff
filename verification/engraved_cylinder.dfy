/** The engraved hexagonal prism: choosing what to engrave (logo, text or
    nothing), turning a logo URL into an extruded tool (SVG parsed directly,
    anything else traced by Potrace first), sizing and placing the tool on
    the prism's bottom face, and subtracting it, with the plain prism as the
    fallback on any failure. */
module EngravedCylinder {
  import opened Common
  import opened Geometry
  import opened Extrusion

  /** `new THREE.CylinderGeometry(2.1, 2.1, 1.4, 6)`: the plain prism, also the fallback. */
  const BasePrism: Solid := CylinderGeometry(2.1, 2.1, 1.4, 6)

  /** Half the prism's height: its bottom face lies on y = -0.7. */
  const BottomFaceY: real := -0.7

  const LogoMaxSize: real := 1.5
  const TextMaxSize: real := 3.0

  const LogoExtrusion: ExtrudeOptions := ExtrudeOptions(depth := 0.3, bevelEnabled := true)
  const TextStyle: TextOptions := TextOptions(size := 0.5, height := 0.4, curveSegments := 12, bevelEnabled := false)
  const PotraceOptions: TraceOptions :=
    TraceOptions(threshold := 128, optTolerance := 0.2, turdSize := 2, turnPolicy := Minority,
                 color := "black", background := "transparent")

  // ---------------------------------------------------------------------------
  // createLogoGeometry

  /** Where a logo's outlines come from. */
  datatype LogoSource = NoLogo | SvgFile(url: string) | TracedRaster(url: string, options: TraceOptions)

  /** The dispatch at the top of `createLogoGeometry`. */
  function LogoSourceOf(url: Option<string>): (r: LogoSource)
    ensures r.NoLogo? <==> !Truthy(url)
    ensures r.SvgFile? <==> Truthy(url) && IsSvgUrl(url.value)
    ensures r.TracedRaster? <==> Truthy(url) && !IsSvgUrl(url.value)
    ensures !r.NoLogo? ==> r.url == url.value
    ensures r.TracedRaster? ==> && r.options.threshold == 128 && r.options.turdSize == 2
                                && r.options.optTolerance == 0.2 && r.options.turnPolicy == Minority
  {
    if !Truthy(url) then NoLogo
    else if IsSvgUrl(url.value) then SvgFile(url.value)
    else TracedRaster(url.value, PotraceOptions)
  }

  /** The promise built from a list of SVG paths: rejected when no shape can
      be extruded, otherwise resolved with the merged extrusions. */
  function Collected(paths: seq<SvgPath>, libs: Libraries, emptyMessage: string): Result<Option<seq<Vec3>>>
  {
    var geometries := Extruded(paths, LogoExtrusion, libs);
    if geometries == [] then Err(emptyMessage) else Ok(Some(Merge(geometries)))
  }

  /** What `createLogoGeometry(url)` settles to: `Ok(None)` for `null`,
      `Ok(Some(vertices))` for a merged tool, `Err` for a rejection. */
  function LogoGeometry(url: Option<string>, libs: Libraries): Result<Option<seq<Vec3>>>
  {
    match LogoSourceOf(url)
    case NoLogo => Ok(None)
    case SvgFile(u) =>
      (match libs.loadSvg(u)
       case Err(m) => Err(m)
       case Ok(paths) => Collected(paths, libs, "No geometries found in SVG"))
    case TracedRaster(u, options) =>
      (match libs.traceRaster(u, options)
       case Err(m) => Err(m)
       case Ok(svg) => Collected(libs.parseSvg(svg), libs, "No geometries found in traced SVG"))
  }

  method CreateLogoGeometry(url: Option<string>, libs: Libraries) returns (r: Result<Option<seq<Vec3>>>)
    ensures r == LogoGeometry(url, libs)
  {
    var source := LogoSourceOf(url);
    var paths: seq<SvgPath>;
    var emptyMessage: string;
    match source {
      case NoLogo =>
        return Ok(None);
      case SvgFile(u) =>
        var loaded := libs.loadSvg(u);
        if loaded.Err? {
          return Err(loaded.message);
        }
        paths, emptyMessage := loaded.value, "No geometries found in SVG";
      case TracedRaster(u, options) =>
        var traced := libs.traceRaster(u, options);
        if traced.Err? {
          return Err(traced.message);
        }
        paths, emptyMessage := libs.parseSvg(traced.value), "No geometries found in traced SVG";
    }
    var geometries := ExtrudeAll(paths, LogoExtrusion, libs);
    if |geometries| > 0 {
      r := Ok(Some(Merge(geometries)));
    } else {
      r := Err(emptyMessage);
    }
  }

  /** A logo whose loaded (or traced) SVG has no shape rejects instead of
      resolving with an empty tool; one with a shape resolves with a tool. */
  lemma LogoRejectsIffNoShapes(url: Option<string>, libs: Libraries)
    requires Truthy(url)
    requires IsSvgUrl(url.value) ==> libs.loadSvg(url.value).Ok?
    requires !IsSvgUrl(url.value) ==> libs.traceRaster(url.value, PotraceOptions).Ok?
    ensures var paths := if IsSvgUrl(url.value) then libs.loadSvg(url.value).value
                         else libs.parseSvg(libs.traceRaster(url.value, PotraceOptions).value);
      && (LogoGeometry(url, libs).Err? <==> forall i :: 0 <= i < |paths| ==> libs.createShapes(paths[i]) == [])
      && (LogoGeometry(url, libs).Ok? ==> LogoGeometry(url, libs).value.Some?)
  {
    var paths := if IsSvgUrl(url.value) then libs.loadSvg(url.value).value
                 else libs.parseSvg(libs.traceRaster(url.value, PotraceOptions).value);
    NoGeometriesIffNoShapes(paths, LogoExtrusion, libs);
  }

  // ---------------------------------------------------------------------------
  // Sizing and placement

  /** A scale that never enlarges and keeps both extents of the tool within
      maxSize. */
  predicate FitsEnvelope(s: real, maxSize: real, width: real, height: real)
  {
    0.0 < s <= 1.0 && s * width <= maxSize && s * height <= maxSize
  }

  /** One of the three bounds on a scale holds with equality. */
  predicate Tight(s: real, maxSize: real, width: real, height: real)
  {
    s == 1.0 || s * width == maxSize || s * height == maxSize
  }

  /** `Math.min(maxSize / width, maxSize / height, 1)`. A zero extent makes its
      quotient +Infinity in JavaScript, which never wins the minimum. */
  function MinQuotient(maxSize: real, width: real, height: real): real
    requires maxSize > 0.0 && width >= 0.0 && height >= 0.0
  {
    var sx := if width > 0.0 && maxSize / width < 1.0 then maxSize / width else 1.0;
    if height > 0.0 && maxSize / height < sx then maxSize / height else sx
  }

  lemma QuotientTimes(m: real, d: real)
    requires d > 0.0
    ensures (m / d) * d == m && d * (m / d) == m
  {
  }

  lemma MulStrictlyIncreasing(f: real, a: real, b: real)
    requires f > 0.0 && a < b
    ensures f * a < f * b && a * f < b * f
  {
    assert f * b - f * a == f * (b - a);
  }

  lemma MulCancel(f: real, a: real, b: real)
    requires f > 0.0 && a * f <= b * f
    ensures a <= b
  {
    assert (b - a) * f == b * f - a * f;
  }

  /** A quotient compares with t as t times the divisor compares with m. */
  lemma QuotientBound(m: real, d: real, t: real)
    requires d > 0.0
    ensures m / d >= t <==> t * d <= m
  {
    var q := m / d;
    assert q * d == m;
    if q >= t {
      assert (q - t) * d >= 0.0;
    } else {
      MulStrictlyIncreasing(d, q, t);
      assert q * d < t * d;
    }
  }

  /** The source's minimum never enlarges, fits the scaled footprint into the
      envelope, and is as large as that allows: one of its bounds is tight. */
  lemma MinQuotientFits(maxSize: real, width: real, height: real)
    requires maxSize > 0.0 && width >= 0.0 && height >= 0.0
    ensures FitsEnvelope(MinQuotient(maxSize, width, height), maxSize, width, height)
    ensures Tight(MinQuotient(maxSize, width, height), maxSize, width, height)
  {
    var s := MinQuotient(maxSize, width, height);
    var sx := if width > 0.0 && maxSize / width < 1.0 then maxSize / width else 1.0;
    if width > 0.0 {
      QuotientTimes(maxSize, width);
      QuotientBound(maxSize, width, 1.0);
      QuotientBound(maxSize, width, sx);
    }
    assert sx * width <= maxSize;
    if height > 0.0 {
      QuotientTimes(maxSize, height);
      QuotientBound(maxSize, height, sx);
    }
    assert 0.0 < sx <= 1.0;
    if s != sx {
      // the height quotient won: it is below sx, so the width still fits
      MulIncreasing(width, s, sx);
      assert s * width == width * s && sx * width == width * sx;
    }
  }

  /** A tight fitting scale is at least any other fitting scale. */
  lemma TightIsLargest(s: real, t: real, maxSize: real, width: real, height: real)
    requires maxSize > 0.0 && width >= 0.0 && height >= 0.0
    requires FitsEnvelope(s, maxSize, width, height) && Tight(s, maxSize, width, height)
    requires FitsEnvelope(t, maxSize, width, height)
    ensures t <= s
  {
    if s == 1.0 {
    } else if s * width == maxSize {
      assert width != 0.0;
      MulCancel(width, t, s);
    } else {
      assert s * height == maxSize && t * height <= maxSize;
      assert height != 0.0;
      MulCancel(height, t, s);
    }
  }

  /** The scale of a tool with the given extents, characterised by what it
      achieves rather than by its arithmetic. */
  ghost function ClampedScale(maxSize: real, width: real, height: real): real
    requires maxSize > 0.0 && width >= 0.0 && height >= 0.0
  {
    MinQuotientFits(maxSize, width, height);
    var s :| FitsEnvelope(s, maxSize, width, height) && Tight(s, maxSize, width, height);
    s
  }

  /** The scale never enlarges, keeps both extents within maxSize, and has
      one of these bounds tight. */
  lemma ScaleFits(maxSize: real, width: real, height: real)
    requires maxSize > 0.0 && width >= 0.0 && height >= 0.0
    ensures FitsEnvelope(ClampedScale(maxSize, width, height), maxSize, width, height)
    ensures Tight(ClampedScale(maxSize, width, height), maxSize, width, height)
  {
  }

  /** Any scale in (0, 1] that keeps both extents within the envelope is at
      most the chosen one. */
  lemma ScaleIsLargest(maxSize: real, width: real, height: real, t: real)
    requires maxSize > 0.0 && width >= 0.0 && height >= 0.0
    requires FitsEnvelope(t, maxSize, width, height)
    ensures t <= ClampedScale(maxSize, width, height)
  {
    ScaleFits(maxSize, width, height);
    TightIsLargest(ClampedScale(maxSize, width, height), t, maxSize, width, height);
  }

  /** The characterisation has exactly one solution, the source's minimum. */
  lemma ScaleIsMinQuotient(maxSize: real, width: real, height: real)
    requires maxSize > 0.0 && width >= 0.0 && height >= 0.0
    ensures ClampedScale(maxSize, width, height) == MinQuotient(maxSize, width, height)
  {
    var s, q := ClampedScale(maxSize, width, height), MinQuotient(maxSize, width, height);
    MinQuotientFits(maxSize, width, height);
    ScaleFits(maxSize, width, height);
    TightIsLargest(s, q, maxSize, width, height);
    TightIsLargest(q, s, maxSize, width, height);
  }

  /** The scale as `generateGeometry` computes it. */
  method ComputeScale(maxSize: real, width: real, height: real) returns (scale: real)
    requires maxSize > 0.0 && width >= 0.0 && height >= 0.0
    ensures scale == ClampedScale(maxSize, width, height)
  {
    scale := MinQuotient(maxSize, width, height);
    ScaleIsMinQuotient(maxSize, width, height);
  }

  /** `maxSize = logoUrl ? 1.5 : 3`. */
  function MaxSizeFor(logoUrl: Option<string>): real
  {
    if Truthy(logoUrl) then LogoMaxSize else TextMaxSize
  }

  /** The tool after the four in-place calls: centred on (cx, cy), scaled by
      s with a Y flip, laid flat by the quarter turn, lowered to the bottom
      face. */
  function PlacedBy(vertices: seq<Vec3>, cx: real, cy: real, s: real): (r: seq<Vec3>)
    ensures |r| == |vertices|
  {
    var centred := Transformed(vertices, Translation(Vec3(-cx, -cy, 0.0)));
    var scaled := Transformed(centred, Scaling(Vec3(s, -s, 1.0)));
    var flat := Transformed(scaled, QuarterTurnX);
    Transformed(flat, Translation(Vec3(0.0, BottomFaceY, 0.0)))
  }

  /** The tool as handed to the CSG evaluator, placed by its own bounding box.
      An empty buffer has no box (the source computes NaN for its centre) and
      stays empty whatever is applied. */
  ghost function PlacedTool(vertices: seq<Vec3>, maxSize: real): (r: seq<Vec3>)
    requires maxSize > 0.0
    ensures |r| == |vertices|
  {
    if vertices == [] then []
    else
      var b := Bounds(vertices).value;
      PlacedBy(vertices, (b.hi.x + b.lo.x) / 2.0, (b.hi.y + b.lo.y) / 2.0,
               ClampedScale(maxSize, b.hi.x - b.lo.x, b.hi.y - b.lo.y))
  }

  /** Where one vertex goes: (x, y, z) to (s(x - cx), -0.7 - z, -s(y - cy)). */
  lemma PlacedByVertex(vertices: seq<Vec3>, cx: real, cy: real, s: real, i: int)
    requires 0 <= i < |vertices|
    ensures var v := vertices[i];
      PlacedBy(vertices, cx, cy, s)[i] == Vec3(s * (v.x - cx), BottomFaceY - v.z, -(s * (v.y - cy)))
  {
    var v := vertices[i];
    assert -s * (v.y - cy) == -(s * (v.y - cy)) && 1.0 * v.z == v.z;
  }

  lemma PlacedToolBy(vertices: seq<Vec3>, maxSize: real, b: Box, cx: real, cy: real, s: real)
    requires maxSize > 0.0 && vertices != [] && b == Bounds(vertices).value
    requires s == ClampedScale(maxSize, b.hi.x - b.lo.x, b.hi.y - b.lo.y)
    requires cx == (b.hi.x + b.lo.x) / 2.0 && cy == (b.hi.y + b.lo.y) / 2.0
    ensures PlacedTool(vertices, maxSize) == PlacedBy(vertices, cx, cy, s)
  {
  }

  /** One axis of the footprint: a coordinate within [lo, hi], centred on
      c = (lo + hi) / 2 and scaled by s with s * (hi - lo) <= maxSize, lands
      within maxSize / 2 of the axis. */
  lemma FootprintAxis(s: real, lo: real, hi: real, c: real, x: real, maxSize: real)
    requires lo <= x <= hi && c == (hi + lo) / 2.0 && s > 0.0 && s * (hi - lo) <= maxSize
    ensures -maxSize / 2.0 <= s * (x - c) <= maxSize / 2.0
  {
    var hw := (hi - lo) / 2.0;
    MulIncreasing(s, x - c, hw);
    MulIncreasing(s, -hw, x - c);
    assert s * hw == s * (hi - lo) / 2.0;
  }

  /** The footprint of a vertex inside the box, centred on the box and
      scaled by the clamped scale, fits the envelope. */
  lemma FootprintWithinEnvelope(b: Box, maxSize: real, v: Vec3, cx: real, cy: real, s: real)
    requires WellFormed(b) && maxSize > 0.0 && Contains(b, v)
    requires s == ClampedScale(maxSize, b.hi.x - b.lo.x, b.hi.y - b.lo.y)
    requires cx == (b.hi.x + b.lo.x) / 2.0 && cy == (b.hi.y + b.lo.y) / 2.0
    ensures -maxSize / 2.0 <= s * (v.x - cx) <= maxSize / 2.0
    ensures -maxSize / 2.0 <= s * (v.y - cy) <= maxSize / 2.0
  {
    ScaleFits(maxSize, b.hi.x - b.lo.x, b.hi.y - b.lo.y);
    FootprintAxis(s, b.lo.x, b.hi.x, cx, v.x, maxSize);
    FootprintAxis(s, b.lo.y, b.hi.y, cy, v.y, maxSize);
  }

  /** Where one vertex of the tool ends up, given the tool's bounding box b,
      its centre (cx, cy) and the clamped scale s: centred, scaled by s, its
      depth turned into height below the face. */
  lemma PlacedToolVertex(vertices: seq<Vec3>, maxSize: real, i: int, b: Box, cx: real, cy: real, s: real)
    requires maxSize > 0.0 && 0 <= i < |vertices| && b == Bounds(vertices).value
    requires s == ClampedScale(maxSize, b.hi.x - b.lo.x, b.hi.y - b.lo.y)
    requires cx == (b.hi.x + b.lo.x) / 2.0 && cy == (b.hi.y + b.lo.y) / 2.0
    ensures PlacedTool(vertices, maxSize)[i]
      == Vec3(s * (vertices[i].x - cx), BottomFaceY - vertices[i].z, -(s * (vertices[i].y - cy)))
  {
    PlacedByVertex(vertices, cx, cy, s, i);
    PlacedToolBy(vertices, maxSize, b, cx, cy, s);
  }

  /** A vertex inside the box b lands, once placed by b's centre and
      clamped scale, within the envelope. */
  lemma PlacedWithinEnvelope(vertices: seq<Vec3>, maxSize: real, i: int, b: Box, cx: real, cy: real, s: real)
    requires maxSize > 0.0 && 0 <= i < |vertices| && WellFormed(b) && Contains(b, vertices[i])
    requires s == ClampedScale(maxSize, b.hi.x - b.lo.x, b.hi.y - b.lo.y)
    requires cx == (b.hi.x + b.lo.x) / 2.0 && cy == (b.hi.y + b.lo.y) / 2.0
    ensures -maxSize / 2.0 <= PlacedBy(vertices, cx, cy, s)[i].x <= maxSize / 2.0
    ensures -maxSize / 2.0 <= PlacedBy(vertices, cx, cy, s)[i].z <= maxSize / 2.0
  {
    PlacedByVertex(vertices, cx, cy, s, i);
    FootprintWithinEnvelope(b, maxSize, vertices[i], cx, cy, s);
  }

  /** Consequence for the cut: every tool vertex lies within the maxSize
      envelope around the prism's axis, whatever the logo's or text's own
      extent. */
  lemma ToolWithinEnvelope(vertices: seq<Vec3>, maxSize: real, i: int)
    requires maxSize > 0.0 && 0 <= i < |vertices|
    ensures -maxSize / 2.0 <= PlacedTool(vertices, maxSize)[i].x <= maxSize / 2.0
    ensures -maxSize / 2.0 <= PlacedTool(vertices, maxSize)[i].z <= maxSize / 2.0
  {
    var b := Bounds(vertices).value;
    var s := ClampedScale(maxSize, b.hi.x - b.lo.x, b.hi.y - b.lo.y);
    var cx, cy := (b.hi.x + b.lo.x) / 2.0, (b.hi.y + b.lo.y) / 2.0;
    assert Contains(b, vertices[i]) by {
      BoundsContain(vertices);
    }
    PlacedToolBy(vertices, maxSize, b, cx, cy, s);
    PlacedWithinEnvelope(vertices, maxSize, i, b, cx, cy, s);
  }

  /** A placed vertex's height is the bottom face minus its extrusion depth:
      z = 0 lands on the face y = -0.7 and positive z lies below it. */
  lemma ToolDepthBelowFace(vertices: seq<Vec3>, maxSize: real, i: int)
    requires maxSize > 0.0 && 0 <= i < |vertices|
    ensures PlacedTool(vertices, maxSize)[i].y == BottomFaceY - vertices[i].z
  {
    var b := Bounds(vertices).value;
    PlacedToolVertex(vertices, maxSize, i, b, (b.hi.x + b.lo.x) / 2.0, (b.hi.y + b.lo.y) / 2.0,
                     ClampedScale(maxSize, b.hi.x - b.lo.x, b.hi.y - b.lo.y));
  }

  /** The four in-place transforms of `generateGeometry`: centre on
      (centerX, centerY), scale with the Y flip, lay flat, lower to the face. */
  method PositionTool(tool: BufferGeometry, centerX: real, centerY: real, scale: real)
    modifies tool.positions
    ensures tool.positions[..] == PlacedBy(old(tool.positions[..]), centerX, centerY, scale)
  {
    ghost var original := tool.positions[..];
    tool.Translate(-centerX, -centerY, 0.0);
    ghost var centred := tool.positions[..];
    tool.Scale(scale, -scale, 1.0);
    ghost var scaled := tool.positions[..];
    tool.RotateXQuarterTurn();
    ghost var flat := tool.positions[..];
    tool.Translate(0.0, BottomFaceY, 0.0);
    assert centred == Transformed(original, Translation(Vec3(-centerX, -centerY, 0.0)));
    assert scaled == Transformed(centred, Scaling(Vec3(scale, -scale, 1.0)));
    assert flat == Transformed(scaled, QuarterTurnX);
  }

  /** The sizing and placement block of `generateGeometry`: bounding box,
      centre, scale, then the transforms. */
  method PlaceTool(tool: BufferGeometry, maxSize: real)
    requires maxSize > 0.0
    modifies tool.positions
    ensures tool.positions[..] == PlacedTool(old(tool.positions[..]), maxSize)
  {
    var box := tool.ComputeBoundingBox();
    if box.None? {
      return;
    }
    var b := box.value;
    var centerX := (b.hi.x + b.lo.x) / 2.0;
    var centerY := (b.hi.y + b.lo.y) / 2.0;
    var scale := ComputeScale(maxSize, b.hi.x - b.lo.x, b.hi.y - b.lo.y);
    ghost var original := tool.positions[..];
    PositionTool(tool, centerX, centerY, scale);
    PlacedToolBy(original, maxSize, b, centerX, centerY, scale);
  }

  // ---------------------------------------------------------------------------
  // generateGeometry

  /** The tool `generateGeometry` settles on: the logo's when a logo URL is
      set, else the text's when the font is loaded and the text non-empty,
      else none. */
  function EngravingTool(font: Option<Font>, text: string, logoUrl: Option<string>, libs: Libraries): Result<Option<seq<Vec3>>>
  {
    if Truthy(logoUrl) then LogoGeometry(logoUrl, libs)
    else if font.Some? && text != "" then Ok(Some(libs.textGeometry(text, font.value, TextStyle)))
    else Ok(None)
  }

  /** The geometry `generateGeometry` sets, or `None` when it returns without
      setting one (no font and no logo). */
  ghost function EngravingOutcome(font: Option<Font>, text: string, logoUrl: Option<string>, libs: Libraries): Option<Solid>
  {
    if font.None? && !Truthy(logoUrl) then None
    else
      match EngravingTool(font, text, logoUrl, libs)
      case Err(_) => Some(BasePrism)
      case Ok(None) => Some(BasePrism)
      case Ok(Some(vertices)) =>
        match libs.subtract(BasePrism, PlacedTool(vertices, MaxSizeFor(logoUrl)))
        case Ok(cut) => Some(cut)
        case Err(_) => Some(BasePrism)
  }

  /** A logo decides the outcome alone: font and text do not matter. */
  lemma LogoTakesPrecedence(font1: Option<Font>, text1: string, font2: Option<Font>, text2: string,
                            logoUrl: Option<string>, libs: Libraries)
    requires Truthy(logoUrl)
    ensures EngravingOutcome(font1, text1, logoUrl, libs) == EngravingOutcome(font2, text2, logoUrl, libs)
  {
  }

  /** Whatever happens, the result is never partial: it is the plain prism or
      exactly what the CSG evaluator returned for the placed tool. */
  lemma OutcomeIsPrismOrCut(font: Option<Font>, text: string, logoUrl: Option<string>, libs: Libraries)
    requires font.Some? || Truthy(logoUrl)
    ensures var r := EngravingOutcome(font, text, logoUrl, libs);
      r.Some? && (r.value == BasePrism || exists tool :: libs.subtract(BasePrism, tool) == Ok(r.value))
  {
    var r := EngravingOutcome(font, text, logoUrl, libs);
    var t := EngravingTool(font, text, logoUrl, libs);
    if t.Ok? && t.value.Some? {
      var tool := PlacedTool(t.value.value, MaxSizeFor(logoUrl));
      if libs.subtract(BasePrism, tool).Ok? {
        assert libs.subtract(BasePrism, tool) == Ok(r.value);
      }
    }
  }

  /** Neither a rejected logo nor empty text engraves anything: both leave
      the plain prism. */
  lemma FailuresLeaveBasePrism(font: Option<Font>, text: string, logoUrl: Option<string>, libs: Libraries)
    ensures Truthy(logoUrl) && LogoGeometry(logoUrl, libs).Err? ==> EngravingOutcome(font, text, logoUrl, libs) == Some(BasePrism)
    ensures !Truthy(logoUrl) && font.Some? && text == "" ==> EngravingOutcome(font, text, logoUrl, libs) == Some(BasePrism)
    ensures font.None? && !Truthy(logoUrl) ==> EngravingOutcome(font, text, logoUrl, libs) == None
  {
  }

  /** The component's state: the loaded font, the rendered geometry, and
      whether the font is still loading. */
  class EngravedCylinderView {
    var font: Option<Font>
    var geometry: Option<Solid>
    var isLoading: bool

    constructor ()
      ensures font == None && geometry == None && isLoading
    {
      font, geometry, isLoading := None, None, true;
    }

    /** The font loader's success callback. */
    method OnFontLoaded(loaded: Font)
      modifies this
      ensures font == Some(loaded) && !isLoading && geometry == old(geometry)
    {
      font := Some(loaded);
      isLoading := false;
    }

    /** The font loader's error callback: only the loading flag changes. */
    method OnFontError()
      modifies this
      ensures !isLoading && font == old(font) && geometry == old(geometry)
    {
      isLoading := false;
    }

    /** `generateGeometry`, run to completion: builds the tool, places it in
        place, subtracts it, and sets the geometry (or leaves it). */
    method GenerateGeometry(text: string, logoUrl: Option<string>, libs: Libraries)
      modifies this`geometry
      ensures var r := EngravingOutcome(font, text, logoUrl, libs);
        geometry == if r.None? then old(geometry) else r
    {
      if font.None? && !Truthy(logoUrl) {
        return;
      }
      var engraving: Result<Option<seq<Vec3>>>;
      if Truthy(logoUrl) {
        engraving := CreateLogoGeometry(logoUrl, libs);
      } else if font.Some? && text != "" {
        engraving := Ok(Some(libs.textGeometry(text, font.value, TextStyle)));
      } else {
        engraving := Ok(None);
      }
      if engraving.Err? {
        // the rejected promise lands in the catch block
        geometry := Some(BasePrism);
        return;
      }
      if engraving.value.None? {
        geometry := Some(BasePrism);
        return;
      }
      var vertices := engraving.value.value;
      var tool := new BufferGeometry(vertices);
      var maxSize := if Truthy(logoUrl) then LogoMaxSize else TextMaxSize;
      PlaceTool(tool, maxSize);
      var result := libs.subtract(BasePrism, tool.positions[..]);
      if result.Ok? {
        geometry := Some(result.value);
      } else {
        geometry := Some(BasePrism);
      }
    }
  }
}
