# Glass engraving: a verified model of the decision layer

The application shows a glass with two sticker decals and engraves a logo or
a line of text into a hexagonal prism. The heavy geometry is done by
libraries: SVGLoader, Potrace, ExtrudeGeometry, TextGeometry,
`mergeGeometries` and the three-bvh-csg evaluator. This project models what
the repository's own code decides around those calls, and proves what it
promises:

- **The cylinder engraver** (`EngravedCylinder`):
  - it chooses between logo, text and nothing;
  - a logo URL is loaded as SVG when it ends in ".svg" in any case, and is traced by Potrace otherwise;
  - a logo without shapes is rejected;
  - the tool is sized by `Math.min(maxSize / width, maxSize / height, 1)` and placed on the prism's bottom face by four in-place transforms;
  - it subtracts the tool, and falls back to the plain prism on any failure.
- **The hexagon engraver** (`EngravedHexagon`): SVG-only logos, centred on their bounding box, the loading flag around the load, and the logo mesh's placement.
- **The sticker shaders** (`StickerShader`): the vertex bend and the inverted-grey-plus-glow fragment colour, over reals, with `sin` and `cos` as parameters.
- **The vanilla scene** (`VanillaScene`):
  - the pointer's conversion to device coordinates;
  - the hover glow state;
  - the drop handler's validation and routing;
  - the texture-selection effects.
- **The two panels and the application shell** (`BottomLogoUI`, `StickerUI`, `App`): the handlers as classes whose methods update the component state and record the callbacks they fire, in order. Each class is specified by a pure `Step` function. Lemmas prove, for every sequence of user actions, that a logo or image and text are never both shown.
- **The stores and the material chooser** (`MaterialStore`, `UiStore`, `GlassMaterial`): record updates by object spread, the reset record, the last-call-wins panel store, and the mode table.

Libraries are fields of a `Libraries` record of functions, and their failures are `Result` values. The raycaster is a function from the pointer to the decals under it, nearest first.

The shader's behaviour at zero strength differs from its prose description. That description says that with no X strength "X stays unchanged". The code computes `newX = radius * sin(angle)`, so with strength 0 every vertex's x becomes 0. The model follows the code (`StickerShader.ZeroStrengthCollapsesX`).

The placement has a consequence that `EngravedCylinder.ToolDepthBelowFace` makes explicit. After `rotateX(Math.PI / 2)` and the lowering, a tool vertex at extrusion depth z sits at height -0.7 - z. Everything at depth z >= 0 therefore lies on or below the prism's bottom face. Only parts at negative depth, such as a bevel, reach into the prism.

## Model

| member | source | states |
|---|---|---|
| Common.Spread | src/store/materialStore.js:40-46 | `{ ...base, ...over }` has the keys of both; a key of `over` takes its value from `over`, any other key keeps its value from `base` |
| Common.SpreadLaws | src/store/materialStore.js:40-46 | spreading `{}` is the identity, spreading the same props twice equals spreading them once, and spreading one key is a plain update of that key |
| Common.TrimStartIsSuffix | src/components/BottomLogoUI.jsx:58 | trimming the front keeps a suffix; everything dropped is white space and the result does not start with white space |
| Common.TrimEndIsPrefix | src/components/BottomLogoUI.jsx:58 | trimming the end keeps a prefix; everything dropped is white space and the result does not end with white space |
| Common.TrimEmptyIffBlank | src/components/StickerUI.jsx:48 | `s.trim()` is empty (falsy) exactly when every character of `s` is white space |
| Common.TrimIsInfix | src/components/BottomLogoUI.jsx:58 | the trimmed string is a contiguous piece of the original |
| Common.ToLowerAscii | src/components/EngravedCylinder.jsx:40 | lower-casing keeps the length and maps each character on its own |
| Common.SvgSuffixCaseInsensitive | src/components/EngravedCylinder.jsx:40 | any URL ending in ".svg", ".SVG" or ".Svg" passes the SVG test, whatever precedes the suffix |
| Common.OtherSuffixesRejected | src/components/EngravedCylinder.jsx:40 | URLs ending in ".png" or ".svgz" fail the SVG test |
| Common.SvgUrlShape | src/components/EngravedHexagon.jsx:57 | a URL that passes the SVG test ends in '.' followed by s, v, g in either case |
| Geometry.Bounds | src/components/EngravedCylinder.jsx:182-183 | there is a bounding box exactly when the buffer has vertices, and it is well formed |
| Geometry.BoundsContain | src/components/EngravedCylinder.jsx:182-183 | every vertex lies inside the bounding box |
| Geometry.BoundsAttained | src/components/EngravedCylinder.jsx:182-183 | the box is tight: each of its six faces is touched by some vertex |
| Geometry.TranslationUndone | src/components/EngravedCylinder.jsx:194 | a translation followed by the opposite one restores every vertex |
| Geometry.QuarterTurnProperties | src/components/EngravedCylinder.jsx:199 | `rotateX(Math.PI / 2)` keeps x and the distance from the X axis, and four of them are the identity |
| Geometry.BoundsTranslated | src/components/EngravedCylinder.jsx:194 | translating the buffer by d moves its bounding box by d |
| Geometry.CentredSymmetric | src/components/EngravedHexagon.jsx:81-85 | after `translate(-centerX, -centerY, 0)` the box is symmetric about x = 0 and y = 0, keeps its width and height and its z range, and no vertex's z changes |
| Geometry.BufferGeometry.ApplyTransform | src/components/EngravedCylinder.jsx:194-202 | the buffer is overwritten in place, each vertex by its image under the transform |
| Geometry.BufferGeometry.Translate | src/components/EngravedCylinder.jsx:194 | `translate(x, y, z)` adds (x, y, z) to every vertex |
| Geometry.BufferGeometry.Scale | src/components/EngravedCylinder.jsx:196 | `scale(x, y, z)` multiplies every vertex component-wise |
| Geometry.BufferGeometry.RotateXQuarterTurn | src/components/EngravedCylinder.jsx:199 | `rotateX(Math.PI / 2)` sends every (x, y, z) to (x, -z, y) |
| Geometry.BufferGeometry.ComputeBoundingBox | src/components/EngravedCylinder.jsx:182-183 | the loop returns the bounding box of the whole buffer |
| Extrusion.ExtrudedPerShape | src/components/EngravedCylinder.jsx:49-64 | exactly one geometry is collected per shape, the k-th being the extrusion of the k-th shape, paths in order |
| Extrusion.NoGeometriesIffNoShapes | src/components/EngravedCylinder.jsx:49-66 | nothing is collected exactly when no path yields a shape |
| Extrusion.ExtrudeAll | src/components/EngravedHexagon.jsx:66-75 | the nested `forEach` loops push exactly the per-shape extrusions, in order |
| EngravedCylinder.LogoSourceOf | src/components/EngravedCylinder.jsx:36-96 | a null or empty URL gives no logo; an ".svg" URL in any case goes to the SVG loader; any other URL is traced with threshold 128, turdSize 2, optTolerance 0.2 and the minority turn policy |
| EngravedCylinder.CreateLogoGeometry | src/components/EngravedCylinder.jsx:35-146 | the method settles to the outcome `LogoGeometry` defines: null, a merged tool, or a rejection |
| EngravedCylinder.LogoRejectsIffNoShapes | src/components/EngravedCylinder.jsx:66-71 | once the SVG is loaded or traced, the promise rejects exactly when no path has a shape, and otherwise resolves with a tool, never with null |
| EngravedCylinder.MinQuotientFits | src/components/EngravedCylinder.jsx:188-191 | `Math.min(maxSize / width, maxSize / height, 1)` lies in (0, 1], keeps scale * width and scale * height within maxSize, and meets one of the three bounds |
| EngravedCylinder.TightIsLargest | src/components/EngravedCylinder.jsx:191 | a fitting scale that meets one of its bounds is at least every other fitting scale |
| EngravedCylinder.ScaleFits | src/components/EngravedCylinder.jsx:188-191 | the scale, defined by what it achieves, never enlarges, keeps both extents within maxSize, and meets one bound |
| EngravedCylinder.ScaleIsLargest | src/components/EngravedCylinder.jsx:188-191 | every scale in (0, 1] that keeps both extents within maxSize is at most the chosen one |
| EngravedCylinder.ScaleIsMinQuotient | src/components/EngravedCylinder.jsx:191 | the source's minimum is exactly that largest fitting scale |
| EngravedCylinder.ComputeScale | src/components/EngravedCylinder.jsx:191 | the computed scale is the largest fitting scale |
| EngravedCylinder.PlacedByVertex | src/components/EngravedCylinder.jsx:194-202 | the four transforms send (x, y, z) to (s(x - cx), -0.7 - z, -s(y - cy)) |
| EngravedCylinder.PlacedToolVertex | src/components/EngravedCylinder.jsx:182-202 | each tool vertex is placed by the centre of the tool's own bounding box and its clamped scale |
| EngravedCylinder.ToolWithinEnvelope | src/components/EngravedCylinder.jsx:182-202 | every placed tool vertex lies within maxSize / 2 of the prism's axis in x and in z, whatever the logo's or text's size |
| EngravedCylinder.ToolDepthBelowFace | src/components/EngravedCylinder.jsx:196-202 | a placed vertex's height is -0.7 minus its extrusion depth: depth 0 lands on the bottom face |
| EngravedCylinder.PositionTool | src/components/EngravedCylinder.jsx:194-202 | the in-place translate, flipped scale, quarter turn and lowering leave the buffer as `PlacedBy` describes |
| EngravedCylinder.PlaceTool | src/components/EngravedCylinder.jsx:182-202 | the whole sizing block leaves the buffer as `PlacedTool` describes, with maxSize 1.5 for logos and 3 for text |
| EngravedCylinder.LogoTakesPrecedence | src/components/EngravedCylinder.jsx:163-174 | with a logo URL, neither the font nor the text affects the outcome |
| EngravedCylinder.OutcomeIsPrismOrCut | src/components/EngravedCylinder.jsx:153-220 | once generation starts, the geometry set is the plain `CylinderGeometry(2.1, 2.1, 1.4, 6)` or exactly what the CSG evaluator returned |
| EngravedCylinder.FailuresLeaveBasePrism | src/components/EngravedCylinder.jsx:151-220 | a rejected logo and empty text both give the plain prism; with neither a font nor a logo nothing is set |
| EngravedCylinder.EngravedCylinderView.constructor | src/components/EngravedCylinder.jsx:13-15 | no font, no geometry, loading |
| EngravedCylinder.EngravedCylinderView.OnFontLoaded | src/components/EngravedCylinder.jsx:22-25 | the font is stored and loading ends; the geometry is untouched |
| EngravedCylinder.EngravedCylinderView.OnFontError | src/components/EngravedCylinder.jsx:27-30 | only the loading flag changes |
| EngravedCylinder.EngravedCylinderView.GenerateGeometry | src/components/EngravedCylinder.jsx:150-222 | the geometry becomes the outcome `EngravingOutcome` defines, or stays as it was when neither a font nor a logo is available |
| EngravedHexagon.LogoGeometryCases | src/components/EngravedHexagon.jsx:53-104 | null for a missing or non-".svg" URL; a rejection exactly when the load fails or no path has a shape; a tool otherwise |
| EngravedHexagon.ResolvedLogoIsCentred | src/components/EngravedHexagon.jsx:77-87 | a resolved tool has the merged extrusion's vertex count, its box is symmetric about x = 0 and y = 0 with the merged extents and depth range |
| EngravedHexagon.CentreInPlace | src/components/EngravedHexagon.jsx:81-85 | the merged buffer is centred in place |
| EngravedHexagon.LoadLogoGeometry | src/components/EngravedHexagon.jsx:53-104 | the method settles to the outcome `LogoGeometry` defines |
| EngravedHexagon.LogoMesh | src/components/EngravedHexagon.jsx:139-145 | the logo mesh exists exactly when there is a logo geometry |
| EngravedHexagon.LogoVertexUnrotated | src/components/EngravedHexagon.jsx:139-145 | without rotation the mesh scales x by logoScale, flips and scales y, and lifts z by 0.25 + logoDepth |
| EngravedHexagon.EngravedHexagonView.constructor | src/components/EngravedHexagon.jsx:11-12 | no geometry, not loading |
| EngravedHexagon.EngravedHexagonView.BeginLoadLogo | src/components/EngravedHexagon.jsx:109-114 | a missing URL clears the geometry without touching the loading flag; any other URL raises the flag |
| EngravedHexagon.EngravedHexagonView.FinishLoadLogo | src/components/EngravedHexagon.jsx:115-122 | the settled geometry is stored, or null on a rejection; loading is over either way |
| EngravedHexagon.EngravedHexagonView.LoadLogo | src/components/EngravedHexagon.jsx:108-123 | after `loadLogo` the geometry is the resolved one or null, and loading is off whenever it was started |
| EngravedHexagon.GeometryOnlyFromShapes | src/components/EngravedHexagon.jsx:96-121 | a geometry results only from an ".svg" URL that loaded and has a path with a shape |
| StickerShader.BendsVanishAtZero | src/components/VanillaScene.jsx:28-39 | neither bend moves a vertex on its axis: x = 0 keeps x and adds no depth, y = 0 adds no depth |
| StickerShader.BendKeepsVaryingsAndHeight | src/components/VanillaScene.jsx:21-40 | `vUv` is `uv`, `vPosition` is the input position, and y is never bent |
| StickerShader.DisabledIsIdentity | src/components/VanillaScene.jsx:26-40 | with `enabled <= 0.5` the vertex is not moved; the bottom decal's curve is created off and the front decal's on |
| StickerShader.BendSeparates | src/components/VanillaScene.jsx:28-39 | the new x depends on x alone, and the depth offset is the X bend's plus the Y bend's |
| StickerShader.ZeroStrengthCollapsesX | src/components/VanillaScene.jsx:28-39 | with X strength 0 every x becomes 0, and only the Y bend moves z |
| StickerShader.ZeroStrengthsKeepDepth | src/components/VanillaScene.jsx:28-39 | with both strengths 0 no vertex's depth changes |
| StickerShader.ShadeIsInvertedGreyPlusGlow | src/components/VanillaScene.jsx:53-69 | each channel is 1 - grey plus glowIntensity times (0.15, 0.3, 0.5); alpha is the texture's |
| StickerShader.GlowOffIsGrey | src/components/VanillaScene.jsx:65-66 | glow 0 gives pure inverted grey; full glow adds (0.15, 0.3, 0.5) |
| StickerShader.ShadeInvertsLuminance | src/components/VanillaScene.jsx:56-59 | a darker texel comes out no darker in every channel |
| VanillaScene.Ndc | src/components/VanillaScene.jsx:455-456 | the pointer has device coordinates exactly when the canvas has a non-zero width and height |
| VanillaScene.NdcInsideRect | src/components/VanillaScene.jsx:455-456 | a point inside the canvas maps into [-1, 1] on both axes; the top-left corner maps to (-1, 1), the bottom-right one to (1, -1) |
| VanillaScene.NdcFlipsY | src/components/VanillaScene.jsx:456 | moving down the screen lowers device y and leaves device x alone |
| VanillaScene.NdcRoundTrip | src/components/VanillaScene.jsx:476-477 | the conversion and `ClientPoint` are inverse to each other on a canvas of positive size |
| VanillaScene.MeshName | src/components/VanillaScene.jsx:243 | "front_sticker" names the front decal and "bottom_sticker" the bottom one |
| VanillaScene.HoverGlow | src/components/VanillaScene.jsx:461-468 | each glow is 0 or 1; a decal glows exactly when it is the nearest hit; never both |
| VanillaScene.DropEffects | src/components/VanillaScene.jsx:485-502 | at most one effect: nothing on a miss or without files, an alert exactly for a hit file outside the allow-list, otherwise the callback of the nearest decal, if it was passed, with the file's URL and type |
| VanillaScene.TextureChoice | src/components/VanillaScene.jsx:617-636 | text wins over a URL exactly when it is non-empty; a URL loads only without text; with neither the map is cleared |
| VanillaScene.StickerScene.constructor | src/components/VanillaScene.jsx:221-230 | no glow, no texture, no effects, pointer at the origin |
| VanillaScene.StickerScene.HandleDragOver | src/components/VanillaScene.jsx:450-470 | a drag without files changes nothing; with files the pointer moves and the glows become `HoverGlow` of the nearest hits; at most one decal glows |
| VanillaScene.StickerScene.HandleDrop | src/components/VanillaScene.jsx:472-503 | both glows end at 0 and exactly `DropEffects` is appended to the effects |
| VanillaScene.StickerScene.UpdateTexture | src/components/VanillaScene.jsx:615-637 | text is drawn at once, a URL starts a load and leaves the map as it was, and with neither the map is cleared; the other decal is untouched |
| VanillaScene.StickerScene.OnTextureLoaded | src/components/VanillaScene.jsx:630-633 | the loaded texture becomes that decal's map |
| VanillaScene.StickerScene.SetMap | src/components/VanillaScene.jsx:628 | one decal's map is set and nothing else changes |
| VanillaScene.DropFiresOnLitDecal | src/components/VanillaScene.jsx:465-497 | a drop fires a callback only for the decal a hover at the same place lights up |
| BottomLogoUI.PresetsAreSvg | src/components/BottomLogoUI.jsx:129-163 | every preset logo passes the SVG test |
| BottomLogoUI.Step | src/components/BottomLogoUI.jsx:8-20 | the drag flag is raised by dragover, lowered by dragleave and drop, otherwise kept; a handler makes at most two calls |
| BottomLogoUI.OnlyFirstFileMatters | src/components/BottomLogoUI.jsx:18-33 | only the first file of a drop or selection matters; an empty list only ends the drag |
| BottomLogoUI.RejectedFileOnlyAlerts | src/components/BottomLogoUI.jsx:35-41 | a file outside the allow-list raises exactly one alert and changes no text |
| BottomLogoUI.AddTextIffTrimmed | src/components/BottomLogoUI.jsx:57-63 | "Add Text" calls the parent exactly when `textInput.trim()` is non-empty, then passes the untrimmed text and clears the logo |
| BottomLogoUI.StepIsBatch | src/components/BottomLogoUI.jsx:35-63 | every handler fires nothing, one alert, a logo then empty text, or text then a null logo; one that sets a logo has emptied the field |
| BottomLogoUI.BatchLeavesParentExclusive | src/components/BottomLogoUI.jsx:43-63 | a handler's calls leave the parent with no logo or no text, and an alert leaves it as it was |
| BottomLogoUI.RunLeavesParentExclusive | src/components/BottomLogoUI.jsx:35-63 | over any sequence of user actions the parent never holds both a logo and some text |
| BottomLogoUI.BottomLogoPanel.constructor | src/components/BottomLogoUI.jsx:4-5 | not dragging, the field holds the parent's current text |
| BottomLogoUI.BottomLogoPanel.HandleDragOver | src/components/BottomLogoUI.jsx:8-11 | the drag flag goes up and nothing is called |
| BottomLogoUI.BottomLogoPanel.HandleDragLeave | src/components/BottomLogoUI.jsx:13-16 | the drag flag goes down and nothing is called |
| BottomLogoUI.BottomLogoPanel.HandleFile | src/components/BottomLogoUI.jsx:35-48 | an alert for a rejected type; otherwise the logo URL goes to the parent and both texts are cleared |
| BottomLogoUI.BottomLogoPanel.HandleDrop | src/components/BottomLogoUI.jsx:18-26 | the drag ends and the first file, if any, is handled |
| BottomLogoUI.BottomLogoPanel.HandleFileInput | src/components/BottomLogoUI.jsx:28-33 | the first selected file, if any, is handled |
| BottomLogoUI.BottomLogoPanel.HandleClear | src/components/BottomLogoUI.jsx:50-55 | the logo becomes "/tux.png" and both texts become empty |
| BottomLogoUI.BottomLogoPanel.HandleAddText | src/components/BottomLogoUI.jsx:57-63 | the trim guard, then the text and a null logo go to the parent |
| BottomLogoUI.BottomLogoPanel.HandleTextEdit | src/components/BottomLogoUI.jsx:179 | the field takes the typed text |
| BottomLogoUI.BottomLogoPanel.HandlePreset | src/components/BottomLogoUI.jsx:129-163 | the preset's path goes to the parent and both texts are cleared |
| StickerUI.PresetTypesMatchPaths | src/components/StickerUI.jsx:130-148 | every preset's type is on the allow-list and matches its extension: SVG exactly for ".svg" paths, PNG exactly for ".png" |
| StickerUI.Step | src/components/StickerUI.jsx:8-20 | the drag flag is raised by dragover, lowered by dragleave and drop, otherwise kept; only typing changes the field; at most one call |
| StickerUI.OnlyFirstFileMatters | src/components/StickerUI.jsx:18-45 | only the first file matters, an empty list calls nothing, a rejected file raises one alert |
| StickerUI.SubmitIffTrimmed | src/components/StickerUI.jsx:47-51 | text goes to the application exactly when its trim is non-empty, untrimmed, and the field keeps it |
| StickerUI.StepIsSound | src/components/StickerUI.jsx:35-51 | every handler reports only allowed image types and non-blank text |
| StickerUI.RunIsSound | src/components/StickerUI.jsx:35-51 | the same holds over any sequence of user actions |
| StickerUI.StickerPanel.constructor | src/components/StickerUI.jsx:4-5 | not dragging, empty field |
| StickerUI.StickerPanel.HandleDragOver | src/components/StickerUI.jsx:8-11 | the drag flag goes up |
| StickerUI.StickerPanel.HandleDragLeave | src/components/StickerUI.jsx:13-16 | the drag flag goes down |
| StickerUI.StickerPanel.HandleFile | src/components/StickerUI.jsx:35-45 | an alert for a rejected type; otherwise the URL and the file's type go to the application |
| StickerUI.StickerPanel.HandleDrop | src/components/StickerUI.jsx:18-26 | the drag ends and the first file, if any, is handled |
| StickerUI.StickerPanel.HandleFileInput | src/components/StickerUI.jsx:28-33 | the first selected file, if any, is handled |
| StickerUI.StickerPanel.HandleTextSubmit | src/components/StickerUI.jsx:47-51 | the trim guard, then the untrimmed text goes to the application |
| StickerUI.StickerPanel.HandleTextEdit | src/components/StickerUI.jsx:112 | the field takes the typed text |
| StickerUI.StickerPanel.HandlePreset | src/components/StickerUI.jsx:130-148 | the preset's path and type go to the application |
| App.ImageUploaded | src/App.jsx:12-16 | an upload sets the URL and the type and clears the text |
| App.TextAdded | src/App.jsx:18-21 | adding text sets it and clears the URL, leaving the type as it was |
| App.HandlersMakeExclusive | src/App.jsx:8-21 | the initial state and the state after either handler never hold both an image and text |
| App.ReceiveKeepsConsistent | src/App.jsx:12-21 | sound calls keep image and text exclusive, a URL with a type, every type allowed, and any text non-blank |
| App.SessionStaysConsistent | src/App.jsx:29-32 | from the initial state, whatever the user does on the sticker panel, the application state stays consistent |
| App.AppView.constructor | src/App.jsx:8-10 | no URL, no type, empty text |
| App.AppView.HandleImageUpload | src/App.jsx:12-16 | the three setters give `ImageUploaded`'s state, which is exclusive |
| App.AppView.HandleTextAdd | src/App.jsx:18-21 | the two setters give `TextAdded`'s state, which is exclusive |
| MaterialStore.ResetIsNotInitial | src/store/materialStore.js:49-69 | the reset record has the initial keys but 4 samples instead of 16 and resolution 256 instead of 512, and differs in nothing else |
| MaterialStore.MaterialStoreState.constructor | src/store/materialStore.js:5-25 | mode "balanced" and the initial record |
| MaterialStore.MaterialStoreState.SetPerformanceMode | src/store/materialStore.js:28 | stores the mode unchecked and leaves the record alone |
| MaterialStore.MaterialStoreState.UpdateMaterialProp | src/store/materialStore.js:31-37 | sets one key, possibly new, and changes no other key and not the mode |
| MaterialStore.MaterialStoreState.UpdateMaterialProps | src/store/materialStore.js:40-46 | the right-biased merge: keys absent from the update keep their values; the mode is kept |
| MaterialStore.MaterialStoreState.ResetMaterialProps | src/store/materialStore.js:49-69 | installs the fixed reset record whatever was there, so it is idempotent; the mode is kept |
| UiStore.UiStoreState.constructor | src/store/uiStore.js:4 | no active panel |
| UiStore.UiStoreState.SetActivePanel | src/store/uiStore.js:5 | stores exactly its argument, unchecked |
| UiStore.LastCallWins | src/store/uiStore.js:5 | after any series of calls the last one's value is the panel |
| UiStore.RepeatIsIdempotent | src/store/uiStore.js:5 | repeating a call changes nothing |
| GlassMaterial.Material | src/components/GlassMaterial.jsx:8-51 | the caller's props are all kept and override the defaults |
| GlassMaterial.ModeTable | src/components/GlassMaterial.jsx:8-51 | an omitted mode is 'fast'; 'fast' (#ffffff) and 'balanced' (#232323) give a standard material, 'quality' a physical one, any other mode null |
| GlassMaterial.NoPropsGivesDefaults | src/components/GlassMaterial.jsx:10-48 | without caller props each mode gets exactly its defaults |
| GlassMaterial.PropsOverrideDefaults | src/components/GlassMaterial.jsx:15-46 | a caller's key always wins, colour included; the kind and the untouched defaults do not depend on the caller |

## Left out

- The library calls are opaque functions of a `Libraries` record: SVGLoader, Potrace with its fetch and FileReader, ExtrudeGeometry, TextGeometry, `mergeGeometries` and the CSG evaluator. Manifoldness, removed volume and the triangulation are not modelled. `mergeGeometries` is modelled as concatenation, never as the `null` it returns for mismatched attributes.
- Synchronous exceptions inside the `try` blocks of `createLogoGeometry` and `loadLogoGeometry` are not modelled, since they come only from library code. A failing step is a rejected promise (`Err`).
- Asynchronous ordering is not modelled. Each `generateGeometry`, `loadLogo` and texture load runs to completion. A stale completion overwriting a newer one is outside the model, and so is `geometry.dispose()` on the old geometry.
- EngravedCylinder.ToolWithinEnvelope: states the envelope vertex by vertex and does not compute the bounding box of the placed tool.
- Floating point is not modelled. Coordinates are reals, `rotateX(Math.PI / 2)` is the exact quarter turn, and `sin` and `cos` are parameters about which only sin 0 = 0 and cos 0 = 1 is known. The NaN box of an empty tool buffer is modelled as no box, and the model then applies no transform.
- VanillaScene.Ndc: a canvas of zero width or height gives no coordinates (`None`) instead of the infinite or NaN values JavaScript computes.
- Raycasting is a parameter: the decals under the pointer, nearest first. It tests the flat geometry, not the surface the vertex shader bends.
- `createRoundedHexagon`, `createHexagonGeometry`, asset loading (GLTF, DRACO, RGBE, `findGeometry`), rendering, camera, controls, lil-gui, resize and the animation loop are left out. They are shape building, I/O and presentation.
- VanillaScene.StickerScene.UpdateTexture: the `if (!matRef.current) return` guard is not modelled, because the mount effect creates both materials first. The canvas drawing of text is reduced to the text it draws.
- `URL.createObjectURL` is an input: each file carries its object URL. `alert` is a recorded effect or call.
- Lower-casing covers ASCII letters only. Other characters pass unchanged, which is all the ".svg" test needs.
- The parent of the bottom-logo panel is not part of this model. It is represented by a receiver that keeps the last value of each callback.
- Object spread ignores key order, and records are maps.
- `null` and `undefined` values inside material props are not modelled. A mode is `None` when omitted.
- The Leva control ranges are not modelled.
- VanillaGlass, Glass, LoadingScreen and the Tailwind configuration are not modelled: they are asset placement, presentation and configuration.
