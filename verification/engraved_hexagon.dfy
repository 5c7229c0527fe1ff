/** The engraved hexagon: an SVG logo (and only an SVG logo) extruded 2
    deep without bevel, merged, centred on its bounding box, and shown as a
    mesh above the hexagon; the component's loading state around it. */
module EngravedHexagon {
  import opened Common
  import opened Geometry
  import opened Extrusion

  /** `{ depth: 2, bevelEnabled: false }`. */
  const LogoExtrusion: ExtrudeOptions := ExtrudeOptions(depth := 2.0, bevelEnabled := false)

  // ---------------------------------------------------------------------------
  // loadLogoGeometry

  /** What `loadLogoGeometry(url)` settles to: `Ok(None)` for a missing URL
      and for anything that is not an SVG, `Err` for a rejection, otherwise
      the merged extrusions centred on their bounding box. */
  function LogoGeometry(url: Option<string>, libs: Libraries): Result<Option<seq<Vec3>>>
  {
    if !Truthy(url) || !IsSvgUrl(url.value) then Ok(None)
    else
      match libs.loadSvg(url.value)
      case Err(m) => Err(m)
      case Ok(paths) =>
        var geometries := Extruded(paths, LogoExtrusion, libs);
        if geometries == [] then Err("No geometries found in SVG") else Ok(Some(Centred(Merge(geometries))))
  }

  /** The three outcomes and when each happens: nothing for a missing or
      non-SVG URL, a rejection when loading fails or no shape is found, a
      tool otherwise. */
  lemma LogoGeometryCases(url: Option<string>, libs: Libraries)
    ensures LogoGeometry(url, libs) == Ok(None) <==> !Truthy(url) || !IsSvgUrl(url.value)
    ensures Truthy(url) && IsSvgUrl(url.value) ==>
      (LogoGeometry(url, libs).Err? <==>
         libs.loadSvg(url.value).Err?
         || forall i :: 0 <= i < |libs.loadSvg(url.value).value| ==> libs.createShapes(libs.loadSvg(url.value).value[i]) == [])
  {
    if Truthy(url) && IsSvgUrl(url.value) && libs.loadSvg(url.value).Ok? {
      NoGeometriesIffNoShapes(libs.loadSvg(url.value).value, LogoExtrusion, libs);
    }
  }

  /** A resolved tool is centred: its box is symmetric about x = 0 and
      y = 0, with the merged extrusion's extents and depth range. */
  lemma ResolvedLogoIsCentred(url: Option<string>, libs: Libraries)
    requires LogoGeometry(url, libs).Ok? && LogoGeometry(url, libs).value.Some?
    ensures var v := LogoGeometry(url, libs).value.value;
      var merged := Merge(Extruded(libs.loadSvg(url.value).value, LogoExtrusion, libs));
      && |v| == |merged|
      && (v != [] ==>
            var b, c := Bounds(merged).value, Bounds(v).value;
            && c.lo.x == -c.hi.x && c.lo.y == -c.hi.y
            && c.hi.x - c.lo.x == b.hi.x - b.lo.x && c.hi.y - c.lo.y == b.hi.y - b.lo.y
            && c.lo.z == b.lo.z && c.hi.z == b.hi.z)
  {
    var merged := Merge(Extruded(libs.loadSvg(url.value).value, LogoExtrusion, libs));
    if merged != [] {
      CentredSymmetric(merged);
    }
  }

  /** `computeBoundingBox` and `translate(-centerX, -centerY, 0)` on the
      merged geometry. */
  method CentreInPlace(g: BufferGeometry)
    modifies g.positions
    ensures g.positions[..] == Centred(old(g.positions[..]))
  {
    var box := g.ComputeBoundingBox();
    if box.None? {
      return;
    }
    var b := box.value;
    var centerX := (b.hi.x + b.lo.x) / 2.0;
    var centerY := (b.hi.y + b.lo.y) / 2.0;
    g.Translate(-centerX, -centerY, 0.0);
  }

  method LoadLogoGeometry(url: Option<string>, libs: Libraries) returns (r: Result<Option<seq<Vec3>>>)
    ensures r == LogoGeometry(url, libs)
  {
    if !Truthy(url) {
      return Ok(None);
    }
    if !IsSvgUrl(url.value) {
      // raster logos are meant to become textures: no geometry
      return Ok(None);
    }
    var loaded := libs.loadSvg(url.value);
    if loaded.Err? {
      return Err(loaded.message);
    }
    var geometries := ExtrudeAll(loaded.value, LogoExtrusion, libs);
    if |geometries| > 0 {
      var merged := new BufferGeometry(Merge(geometries));
      CentreInPlace(merged);
      r := Ok(Some(merged.positions[..]));
    } else {
      r := Err("No geometries found in SVG");
    }
  }

  // ---------------------------------------------------------------------------
  // The logo mesh

  /** The Leva controls: `logoScale`, `logoDepth`, `logoRotation`. */
  datatype LogoControls = LogoControls(logoScale: real, logoDepth: real, logoRotation: real)

  const DefaultControls: LogoControls := LogoControls(logoScale := 0.015, logoDepth := 0.01, logoRotation := 0.0)

  /** A mesh's position, rotation about Z, and scale. */
  datatype Placement = Placement(position: Vec3, rotationZ: real, scale: Vec3)

  /** The logo mesh, rendered only when there is a logo geometry. */
  function LogoMesh(logoGeometry: Option<seq<Vec3>>, controls: LogoControls): (r: Option<Placement>)
    ensures r.Some? <==> logoGeometry.Some?
  {
    if logoGeometry.None? then None
    else Some(Placement(Vec3(0.0, 0.0, 0.25 + controls.logoDepth), controls.logoRotation,
                        Vec3(controls.logoScale, -controls.logoScale, 1.0)))
  }

  /** Where a mesh puts one of its vertices: scale, then rotate, then move. */
  function MeshVertex(trig: Trig, m: Placement, v: Vec3): Vec3
  {
    var scaled := Apply(Scaling(m.scale), v);
    Apply(Translation(m.position), RotateZ(trig, m.rotationZ, scaled))
  }

  /** Without rotation the logo is scaled by logoScale with its Y axis
      flipped (SVG's Y runs down) and lifted to z = 0.25 + logoDepth. */
  lemma LogoVertexUnrotated(trig: Trig, logoGeometry: seq<Vec3>, controls: LogoControls, v: Vec3)
    requires Anchored(trig) && controls.logoRotation == 0.0
    ensures var s := controls.logoScale;
      MeshVertex(trig, LogoMesh(Some(logoGeometry), controls).value, v)
        == Vec3(s * v.x, -(s * v.y), v.z + 0.25 + controls.logoDepth)
  {
    var s := controls.logoScale;
    assert 1.0 * (s * v.x) - 0.0 * (-s * v.y) == s * v.x;
    assert 0.0 * (s * v.x) + 1.0 * (-s * v.y) == -(s * v.y);
  }

  // ---------------------------------------------------------------------------
  // The component's state

  class EngravedHexagonView {
    var logoGeometry: Option<seq<Vec3>>
    var isLoading: bool

    constructor ()
      ensures logoGeometry == None && !isLoading
    {
      logoGeometry, isLoading := None, false;
    }

    /** `loadLogo` up to its `await`: a missing URL clears the geometry
        without loading; otherwise the loading flag goes up. */
    method BeginLoadLogo(logoUrl: Option<string>) returns (started: bool)
      modifies this
      ensures started <==> Truthy(logoUrl)
      ensures !started ==> logoGeometry == None && isLoading == old(isLoading)
      ensures started ==> isLoading && logoGeometry == old(logoGeometry)
    {
      if !Truthy(logoUrl) {
        logoGeometry := None;
        return false;
      }
      isLoading := true;
      return true;
    }

    /** `loadLogo` after its `await`: the settled geometry, or none on a
        rejection; either way loading is over. */
    method FinishLoadLogo(outcome: Result<Option<seq<Vec3>>>)
      modifies this
      ensures logoGeometry == (if outcome.Ok? then outcome.value else None)
      ensures !isLoading
    {
      if outcome.Ok? {
        logoGeometry := outcome.value;
      } else {
        logoGeometry := None;
      }
      isLoading := false;
    }

    /** `loadLogo` run to completion. */
    method LoadLogo(logoUrl: Option<string>, libs: Libraries)
      modifies this
      ensures var r := LogoGeometry(logoUrl, libs);
        logoGeometry == (if r.Ok? then r.value else None)
      ensures isLoading == (if Truthy(logoUrl) then false else old(isLoading))
    {
      var started := BeginLoadLogo(logoUrl);
      if started {
        var outcome := LoadLogoGeometry(logoUrl, libs);
        FinishLoadLogo(outcome);
      }
    }
  }

  /** Whatever the URL, loading ends with no geometry unless an SVG produced
      shapes: a raster logo, a failed load and an empty SVG all leave none. */
  lemma GeometryOnlyFromShapes(logoUrl: Option<string>, libs: Libraries)
    requires var r := LogoGeometry(logoUrl, libs); r.Ok? && r.value.Some?
    ensures Truthy(logoUrl) && IsSvgUrl(logoUrl.value) && libs.loadSvg(logoUrl.value).Ok?
    ensures exists i :: 0 <= i < |libs.loadSvg(logoUrl.value).value|
                        && libs.createShapes(libs.loadSvg(logoUrl.value).value[i]) != []
  {
    LogoGeometryCases(logoUrl, libs);
  }
}
