/** The libraries the engravers call and whose code is not part of this model
    (SVGLoader, Potrace, ExtrudeGeometry, TextGeometry, three-bvh-csg), as
    opaque functions in a record, plus the one piece of logic both engravers
    share around them: extruding every shape of every SVG path and collecting
    the results in order. */
module Extrusion {
  import opened Common
  import opened Geometry

  /** Handles to objects the libraries own. */
  datatype SvgPath = SvgPath(id: nat)
  datatype Shape = Shape(id: nat)
  datatype Font = Font(name: string)

  datatype ExtrudeOptions = ExtrudeOptions(depth: real, bevelEnabled: bool)
  datatype TextOptions = TextOptions(size: real, height: real, curveSegments: nat, bevelEnabled: bool)

  datatype TurnPolicy = Black | White | Left | Right | Minority | Majority
  datatype TraceOptions = TraceOptions(threshold: nat, optTolerance: real, turdSize: nat,
                                       turnPolicy: TurnPolicy, color: string, background: string)

  /** A solid the scene can render: three.js's CylinderGeometry, or a mesh
      that the CSG evaluator produced. */
  datatype Solid =
    | CylinderGeometry(radiusTop: real, radiusBottom: real, height: real, radialSegments: nat)
    | CsgResult(id: nat)

  /** Each field stands for a library step; a `Result` marks the steps that
      can fail (a rejected load, a tracing error, a thrown CSG evaluation). */
  datatype Libraries = Libraries(
    loadSvg: string -> Result<seq<SvgPath>>,               // SVGLoader.load(url): data.paths
    traceRaster: (string, TraceOptions) -> Result<string>, // fetch, FileReader, Potrace.trace: SVG text
    parseSvg: string -> seq<SvgPath>,                      // SVGLoader.parse(svg).paths
    createShapes: SvgPath -> seq<Shape>,                   // SVGLoader.createShapes(path)
    extrude: (Shape, ExtrudeOptions) -> seq<Vec3>,         // new ExtrudeGeometry(shape, options)
    textGeometry: (string, Font, TextOptions) -> seq<Vec3>,// new TextGeometry(text, options)
    subtract: (Solid, seq<Vec3>) -> Result<Solid>          // Evaluator.evaluate(base, tool, SUBTRACTION)
  )

  /** The shapes of the given paths, path by path. */
  function ShapesOf(paths: seq<SvgPath>, libs: Libraries): seq<Shape>
  {
    if paths == [] then [] else ShapesOf(paths[..|paths| - 1], libs) + libs.createShapes(paths[|paths| - 1])
  }

  function ExtrudeEach(shapes: seq<Shape>, options: ExtrudeOptions, libs: Libraries): (r: seq<seq<Vec3>>)
    ensures |r| == |shapes|
  {
    seq(|shapes|, k requires 0 <= k < |shapes| => libs.extrude(shapes[k], options))
  }

  /** The geometries the nested `forEach` pushes: one per shape, paths in
      order and each path's shapes in order. */
  function Extruded(paths: seq<SvgPath>, options: ExtrudeOptions, libs: Libraries): seq<seq<Vec3>>
  {
    if paths == [] then []
    else Extruded(paths[..|paths| - 1], options, libs) + ExtrudeEach(libs.createShapes(paths[|paths| - 1]), options, libs)
  }

  /** `mergeGeometries`: the position buffers one after another. */
  function Merge(geometries: seq<seq<Vec3>>): seq<Vec3>
  {
    if geometries == [] then [] else Merge(geometries[..|geometries| - 1]) + geometries[|geometries| - 1]
  }

  /** There is exactly one geometry per shape, and the k-th is the extrusion
      of the k-th shape. */
  lemma {:induction false} ExtrudedPerShape(paths: seq<SvgPath>, options: ExtrudeOptions, libs: Libraries)
    ensures |Extruded(paths, options, libs)| == |ShapesOf(paths, libs)|
    ensures Extruded(paths, options, libs) == ExtrudeEach(ShapesOf(paths, libs), options, libs)
  {
    if paths != [] {
      var init := paths[..|paths| - 1];
      ExtrudedPerShape(init, options, libs);
      var shapes := libs.createShapes(paths[|paths| - 1]);
      assert ExtrudeEach(ShapesOf(init, libs) + shapes, options, libs)
          == ExtrudeEach(ShapesOf(init, libs), options, libs) + ExtrudeEach(shapes, options, libs);
    }
  }

  /** No geometry is collected exactly when no path yields a shape. */
  lemma {:induction false} NoGeometriesIffNoShapes(paths: seq<SvgPath>, options: ExtrudeOptions, libs: Libraries)
    ensures Extruded(paths, options, libs) == [] <==> forall i :: 0 <= i < |paths| ==> libs.createShapes(paths[i]) == []
  {
    if paths != [] {
      var n := |paths| - 1;
      var init := paths[..n];
      NoGeometriesIffNoShapes(init, options, libs);
      forall i | 0 <= i < n ensures init[i] == paths[i] { }
      if Extruded(paths, options, libs) == [] {
        assert |ExtrudeEach(libs.createShapes(paths[n]), options, libs)| == 0;
      }
    }
  }

  /** The nested `paths.forEach(path => createShapes(path).forEach(...push))`. */
  method ExtrudeAll(paths: seq<SvgPath>, options: ExtrudeOptions, libs: Libraries) returns (geometries: seq<seq<Vec3>>)
    ensures geometries == Extruded(paths, options, libs)
  {
    geometries := [];
    var i := 0;
    while i < |paths|
      invariant 0 <= i <= |paths|
      invariant geometries == Extruded(paths[..i], options, libs)
    {
      var shapes := libs.createShapes(paths[i]);
      var j := 0;
      while j < |shapes|
        invariant 0 <= j <= |shapes|
        invariant geometries == Extruded(paths[..i], options, libs) + ExtrudeEach(shapes[..j], options, libs)
      {
        geometries := geometries + [libs.extrude(shapes[j], options)];
        j := j + 1;
      }
      assert shapes[..j] == shapes;
      assert paths[..i + 1][..i] == paths[..i];
      i := i + 1;
    }
    assert paths[..i] == paths;
  }
}
