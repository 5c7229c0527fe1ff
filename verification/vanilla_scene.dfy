/** The interactive part of the vanilla three.js scene: the pointer's
    conversion to normalised device coordinates, the hover glow on the two
    sticker decals while a file is dragged over the canvas, the drop handler
    that validates the file and routes it to the decal it landed on, and the
    effects that choose each decal's texture. The raycaster is a parameter:
    given the pointer it returns the decals under it, nearest first. */
module VanillaScene {
  import opened Common
  import opened StickerShader

  /** `canvas.getBoundingClientRect()`. */
  datatype Rect = Rect(left: real, top: real, width: real, height: real)

  /** The pointer in normalised device coordinates; `None` when a
      coordinate is not a finite number because the canvas has no width or
      no height. */
  function Ndc(clientX: real, clientY: real, rect: Rect): (p: Option<Vec2>)
    ensures p.None? <==> rect.width == 0.0 || rect.height == 0.0
  {
    if rect.width == 0.0 || rect.height == 0.0 then None
    else Some(Vec2((clientX - rect.left) / rect.width * 2.0 - 1.0,
                   -((clientY - rect.top) / rect.height) * 2.0 + 1.0))
  }

  /** The client point that a device point stands for: the inverse of `Ndc`. */
  function ClientPoint(p: Vec2, rect: Rect): Vec2
  {
    Vec2(rect.left + (p.x + 1.0) / 2.0 * rect.width, rect.top + (1.0 - p.y) / 2.0 * rect.height)
  }

  lemma DivCancel(a: real, k: real, w: real)
    requires w != 0.0 && a == k * w
    ensures a / w == k
  {
  }

  lemma Fraction(a: real, w: real)
    requires 0.0 < w && 0.0 <= a <= w
    ensures 0.0 <= a / w <= 1.0
  {
    assert a / w * w == a;
  }

  /** A point inside the canvas maps into [-1, 1] on both axes; the left
      and top edges map to -1 and +1: the y axis is flipped. */
  lemma NdcInsideRect(clientX: real, clientY: real, rect: Rect)
    requires 0.0 < rect.width && 0.0 < rect.height
    requires rect.left <= clientX <= rect.left + rect.width
    requires rect.top <= clientY <= rect.top + rect.height
    ensures Ndc(clientX, clientY, rect).Some?
    ensures var p := Ndc(clientX, clientY, rect).value;
      -1.0 <= p.x <= 1.0 && -1.0 <= p.y <= 1.0
    ensures Ndc(rect.left, rect.top, rect) == Some(Vec2(-1.0, 1.0))
    ensures Ndc(rect.left + rect.width, rect.top + rect.height, rect) == Some(Vec2(1.0, -1.0))
  {
    Fraction(clientX - rect.left, rect.width);
    Fraction(clientY - rect.top, rect.height);
    assert (rect.left + rect.width - rect.left) / rect.width == 1.0;
    assert (rect.top + rect.height - rect.top) / rect.height == 1.0;
  }

  /** Moving the pointer down the screen moves it down in device space. */
  lemma NdcFlipsY(clientX: real, y1: real, y2: real, rect: Rect)
    requires 0.0 < rect.width && 0.0 < rect.height && y1 < y2
    ensures Ndc(clientX, y1, rect).value.y > Ndc(clientX, y2, rect).value.y
    ensures Ndc(clientX, y1, rect).value.x == Ndc(clientX, y2, rect).value.x
  {
    assert (y1 - rect.top) / rect.height < (y2 - rect.top) / rect.height by {
      assert (y2 - rect.top) / rect.height - (y1 - rect.top) / rect.height == (y2 - y1) / rect.height;
    }
  }

  /** `Ndc` and `ClientPoint` undo each other on a canvas of positive size. */
  lemma NdcRoundTrip(clientX: real, clientY: real, p: Vec2, rect: Rect)
    requires 0.0 < rect.width && 0.0 < rect.height
    ensures ClientPoint(Ndc(clientX, clientY, rect).value, rect) == Vec2(clientX, clientY)
    ensures Ndc(ClientPoint(p, rect).x, ClientPoint(p, rect).y, rect) == Some(p)
  {
    var q := Ndc(clientX, clientY, rect).value;
    assert (q.x + 1.0) / 2.0 == (clientX - rect.left) / rect.width;
    assert (q.x + 1.0) / 2.0 * rect.width == clientX - rect.left;
    assert (1.0 - q.y) / 2.0 == (clientY - rect.top) / rect.height;
    assert (1.0 - q.y) / 2.0 * rect.height == clientY - rect.top;
    var c := ClientPoint(p, rect);
    DivCancel(c.x - rect.left, (p.x + 1.0) / 2.0, rect.width);
    DivCancel(c.y - rect.top, (1.0 - p.y) / 2.0, rect.height);
  }

  // ---------------------------------------------------------------------------
  // Decals, glow and drop routing

  /** The two meshes the raycaster tests. */
  datatype StickerMesh = FrontMesh | BottomMesh

  function MeshName(m: StickerMesh): (name: string)
    ensures name == "front_sticker" <==> m == FrontMesh
    ensures name == "bottom_sticker" <==> m == BottomMesh
  {
    match m
    case FrontMesh => "front_sticker"
    case BottomMesh => "bottom_sticker"
  }

  /** The raycaster: the decals under a pointer, nearest first. */
  type Raycast = Option<Vec2> -> seq<StickerMesh>

  /** The two `glowIntensity` uniforms. */
  datatype Glow = Glow(front: real, bottom: real)

  /** The glow after a hover: both reset, then the nearest hit lights up. */
  function HoverGlow(hits: seq<StickerMesh>): (g: Glow)
    ensures g.front == 0.0 || g.front == 1.0
    ensures g.bottom == 0.0 || g.bottom == 1.0
    ensures g.front == 1.0 <==> hits != [] && hits[0] == FrontMesh
    ensures g.bottom == 1.0 <==> hits != [] && hits[0] == BottomMesh
    ensures !(g.front == 1.0 && g.bottom == 1.0)
  {
    if hits == [] then Glow(0.0, 0.0)
    else match hits[0]
      case FrontMesh => Glow(1.0, 0.0)
      case BottomMesh => Glow(0.0, 1.0)
  }

  /** What the drop handler hands to the outside world. */
  datatype Effect =
    | Alert(message: string)
    | FrontStickerDrop(url: string, mimeType: string)
    | BottomLogoDrop(url: string, mimeType: string)

  const BadTypeMessage: string := "Please upload only PNG, SVG, or WebP images."

  /** The callbacks the parent passed in, if any. */
  datatype Handlers = Handlers(hasFrontStickerDrop: bool, hasBottomLogoDrop: bool)

  /** Whether the drop gets as far as the type check: a decal was hit and a
      file was dropped. */
  predicate DropReachesFile(hits: seq<StickerMesh>, files: seq<File>)
  {
    hits != [] && files != []
  }

  /** The effects of one drop: nothing on a miss or without files, an alert
      for a type outside the allow-list, and otherwise at most one callback,
      chosen by the name of the nearest decal. */
  function DropEffects(hits: seq<StickerMesh>, files: seq<File>, handlers: Handlers): (r: seq<Effect>)
    ensures |r| <= 1
    ensures !DropReachesFile(hits, files) ==> r == []
    ensures r != [] && r[0].Alert? <==> DropReachesFile(hits, files) && !IsAllowedImageType(files[0].mimeType)
    ensures r != [] && r[0].Alert? ==> r[0].message == BadTypeMessage
    ensures r != [] && r[0].FrontStickerDrop? <==>
      DropReachesFile(hits, files) && IsAllowedImageType(files[0].mimeType)
      && hits[0] == FrontMesh && handlers.hasFrontStickerDrop
    ensures r != [] && r[0].BottomLogoDrop? <==>
      DropReachesFile(hits, files) && IsAllowedImageType(files[0].mimeType)
      && hits[0] == BottomMesh && handlers.hasBottomLogoDrop
    ensures r != [] && !r[0].Alert? ==> r[0].url == files[0].objectUrl && r[0].mimeType == files[0].mimeType
  {
    if !DropReachesFile(hits, files) then []
    else
      var file := files[0];
      if !IsAllowedImageType(file.mimeType) then [Alert(BadTypeMessage)]
      else if MeshName(hits[0]) == "front_sticker" && handlers.hasFrontStickerDrop then
        [FrontStickerDrop(file.objectUrl, file.mimeType)]
      else if MeshName(hits[0]) == "bottom_sticker" && handlers.hasBottomLogoDrop then
        [BottomLogoDrop(file.objectUrl, file.mimeType)]
      else []
  }

  // ---------------------------------------------------------------------------
  // Texture selection

  /** What a decal's material samples. */
  datatype Texture = CanvasText(text: string) | LoadedImage(url: string)

  /** The branch a texture effect takes. */
  datatype TextureAction = DrawText(text: string) | LoadUrl(url: string) | ClearMap

  /** Non-empty text wins over a URL; with neither the map is cleared. */
  function TextureChoice(text: Option<string>, url: Option<string>): (a: TextureAction)
    ensures a.DrawText? <==> Truthy(text)
    ensures a.LoadUrl? <==> !Truthy(text) && Truthy(url)
    ensures a.ClearMap? <==> !Truthy(text) && !Truthy(url)
    ensures a.DrawText? ==> a.text == text.value
    ensures a.LoadUrl? ==> a.url == url.value
  {
    if Truthy(text) then DrawText(text.value)
    else if Truthy(url) then LoadUrl(url.value)
    else ClearMap
  }

  // ---------------------------------------------------------------------------
  // The scene's mutable state

  class StickerScene {
    var mouse: Option<Vec2>
    var frontGlow: real
    var bottomGlow: real
    var frontMap: Option<Texture>
    var bottomMap: Option<Texture>
    /** Alerts and parent callbacks, in the order they happened. */
    var effects: seq<Effect>

    /** Each glow is off or on, and at most one decal glows. */
    predicate Valid()
      reads this
    {
      && (frontGlow == 0.0 || frontGlow == 1.0)
      && (bottomGlow == 0.0 || bottomGlow == 1.0)
      && !(frontGlow == 1.0 && bottomGlow == 1.0)
    }

    function Map(which: StickerMesh): Option<Texture>
      reads this
    {
      match which
      case FrontMesh => frontMap
      case BottomMesh => bottomMap
    }

    /** The scene as mounted: pointer at the origin, no glow, no texture. */
    constructor ()
      ensures Valid()
      ensures mouse == Some(Vec2(0.0, 0.0)) && frontGlow == 0.0 && bottomGlow == 0.0
      ensures frontMap == None && bottomMap == None && effects == []
    {
      mouse := Some(Vec2(0.0, 0.0));
      frontGlow, bottomGlow := 0.0, 0.0;
      frontMap, bottomMap := None, None;
      effects := [];
    }

    /** `handleDragOver`: only a drag carrying files moves the pointer and
        the glow; the nearest decal under it glows, the other does not. */
    method HandleDragOver(types: seq<string>, clientX: real, clientY: real, rect: Rect, raycast: Raycast)
      requires Valid()
      modifies this
      ensures Valid()
      ensures "Files" !in types ==> mouse == old(mouse) && frontGlow == old(frontGlow) && bottomGlow == old(bottomGlow)
      ensures "Files" in types ==> mouse == Ndc(clientX, clientY, rect)
                                   && Glow(frontGlow, bottomGlow) == HoverGlow(raycast(mouse))
      ensures frontMap == old(frontMap) && bottomMap == old(bottomMap) && effects == old(effects)
    {
      if "Files" in types {
        mouse := Ndc(clientX, clientY, rect);
        var hits := raycast(mouse);
        frontGlow := 0.0;
        bottomGlow := 0.0;
        if |hits| > 0 {
          if hits[0] == FrontMesh {
            frontGlow := 1.0;
          } else {
            bottomGlow := 1.0;
          }
        }
      }
    }

    /** `handleDrop`: both glows go out, and the drop's effects are appended. */
    method HandleDrop(clientX: real, clientY: real, rect: Rect, raycast: Raycast,
                      files: seq<File>, handlers: Handlers)
      requires Valid()
      modifies this
      ensures Valid()
      ensures mouse == Ndc(clientX, clientY, rect)
      ensures frontGlow == 0.0 && bottomGlow == 0.0
      ensures effects == old(effects) + DropEffects(raycast(mouse), files, handlers)
      ensures frontMap == old(frontMap) && bottomMap == old(bottomMap)
    {
      mouse := Ndc(clientX, clientY, rect);
      var hits := raycast(mouse);
      frontGlow := 0.0;
      bottomGlow := 0.0;
      if |hits| > 0 {
        var hit := hits[0];
        if |files| > 0 {
          var file := files[0];
          if IsAllowedImageType(file.mimeType) {
            var url := file.objectUrl;
            if MeshName(hit) == "front_sticker" && handlers.hasFrontStickerDrop {
              effects := effects + [FrontStickerDrop(url, file.mimeType)];
            } else if MeshName(hit) == "bottom_sticker" && handlers.hasBottomLogoDrop {
              effects := effects + [BottomLogoDrop(url, file.mimeType)];
            }
          } else {
            effects := effects + [Alert(BadTypeMessage)];
          }
        }
      }
    }

    /** One texture effect: text is drawn at once, a URL starts a load whose
        completion is `OnTextureLoaded`, and neither clears the map. */
    method UpdateTexture(which: StickerMesh, text: Option<string>, url: Option<string>)
      returns (load: Option<string>)
      requires Valid()
      modifies this
      ensures Valid()
      ensures load.Some? <==> TextureChoice(text, url).LoadUrl?
      ensures load.Some? ==> load.value == url.value
      ensures Map(which) == match TextureChoice(text, url)
                           case DrawText(t) => Some(CanvasText(t))
                           case LoadUrl(_) => old(Map(which))
                           case ClearMap => None
      ensures which == FrontMesh ==> bottomMap == old(bottomMap)
      ensures which == BottomMesh ==> frontMap == old(frontMap)
      ensures mouse == old(mouse) && frontGlow == old(frontGlow) && bottomGlow == old(bottomGlow)
      ensures effects == old(effects)
    {
      load := None;
      match TextureChoice(text, url)
      case DrawText(t) =>
        SetMap(which, Some(CanvasText(t)));
      case LoadUrl(u) =>
        load := Some(u);
      case ClearMap =>
        SetMap(which, None);
    }

    /** The texture loader's callback. */
    method OnTextureLoaded(which: StickerMesh, url: string)
      requires Valid()
      modifies this
      ensures Valid()
      ensures Map(which) == Some(LoadedImage(url))
      ensures which == FrontMesh ==> bottomMap == old(bottomMap)
      ensures which == BottomMesh ==> frontMap == old(frontMap)
      ensures mouse == old(mouse) && frontGlow == old(frontGlow) && bottomGlow == old(bottomGlow)
      ensures effects == old(effects)
    {
      SetMap(which, Some(LoadedImage(url)));
    }

    /** `uniforms.map.value = …` on one decal's material. */
    method SetMap(which: StickerMesh, t: Option<Texture>)
      requires Valid()
      modifies this
      ensures Valid()
      ensures Map(which) == t
      ensures which == FrontMesh ==> bottomMap == old(bottomMap)
      ensures which == BottomMesh ==> frontMap == old(frontMap)
      ensures mouse == old(mouse) && frontGlow == old(frontGlow) && bottomGlow == old(bottomGlow)
      ensures effects == old(effects)
    {
      match which
      case FrontMesh => frontMap := t;
      case BottomMesh => bottomMap := t;
    }
  }

  /** A hover and then a drop at the same place: the drop leaves no glow,
      and it fires a callback only on the decal the hover lit up. */
  lemma DropFiresOnLitDecal(hits: seq<StickerMesh>, files: seq<File>, handlers: Handlers)
    requires var r := DropEffects(hits, files, handlers); r != [] && !r[0].Alert?
    ensures DropEffects(hits, files, handlers)[0].FrontStickerDrop? ==> HoverGlow(hits).front == 1.0
    ensures DropEffects(hits, files, handlers)[0].BottomLogoDrop? ==> HoverGlow(hits).bottom == 1.0
  {
  }
}
