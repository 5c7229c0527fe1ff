/** The glass material chooser: a performance mode selects a three.js
    material and its defaults, and the caller's own properties are spread
    over them. */
module GlassMaterial {
  import opened Common

  datatype MaterialKind = MeshStandardMaterial | MeshPhysicalMaterial

  datatype MaterialConfig = MaterialConfig(kind: MaterialKind, props: map<string, JsValue>)

  const FastDefaults: map<string, JsValue> := map["color" := Str("#ffffff")]

  const BalancedDefaults: map<string, JsValue> := map["color" := Str("#232323")]

  /** `color={0xffffff}` is the number 16777215. */
  const QualityDefaults: map<string, JsValue> := map[
    "color" := Num(16777215.0),
    "metalness" := Num(0.0),
    "roughness" := Num(0.2),
    "transmission" := Num(1.0),
    "ior" := Num(1.5),
    "reflectivity" := Num(0.5),
    "thickness" := Num(2.5),
    "envMapIntensity" := Num(1.5),
    "clearcoat" := Num(1.0),
    "clearcoatRoughness" := Num(0.1),
    "opacity" := Num(0.48),
    "transparent" := Bool(true)
  ]

  /** The mode after the parameter default: `None` is an omitted mode. */
  function EffectiveMode(mode: Option<JsValue>): JsValue
  {
    if mode.None? then Str("fast") else mode.value
  }

  /** `GlassMaterial({ mode, ...props })`; `None` is the `null` it returns
      for an unknown mode. */
  function Material(mode: Option<JsValue>, props: map<string, JsValue>): (r: Option<MaterialConfig>)
    ensures r.Some? ==> r.value.props.Keys >= props.Keys
    ensures r.Some? ==> forall k :: k in props ==> r.value.props[k] == props[k]
  {
    var m := EffectiveMode(mode);
    if m == Str("fast") then Some(MaterialConfig(MeshStandardMaterial, Spread(FastDefaults, props)))
    else if m == Str("balanced") then Some(MaterialConfig(MeshStandardMaterial, Spread(BalancedDefaults, props)))
    else if m == Str("quality") then Some(MaterialConfig(MeshPhysicalMaterial, Spread(QualityDefaults, props)))
    else None
  }

  /** The mode table: omitted means 'fast'; 'fast' and 'balanced' give a
      standard material differing only in colour, 'quality' a physical one,
      anything else nothing. */
  lemma ModeTable(props: map<string, JsValue>, other: JsValue)
    requires other != Str("fast") && other != Str("balanced") && other != Str("quality")
    ensures Material(None, props) == Material(Some(Str("fast")), props)
    ensures Material(Some(Str("fast")), props).value.kind == MeshStandardMaterial
    ensures Material(Some(Str("balanced")), props).value.kind == MeshStandardMaterial
    ensures Material(Some(Str("quality")), props).value.kind == MeshPhysicalMaterial
    ensures Material(Some(other), props) == None
    ensures "color" !in props ==> Material(Some(Str("fast")), props).value.props["color"] == Str("#ffffff")
    ensures "color" !in props ==> Material(Some(Str("balanced")), props).value.props["color"] == Str("#232323")
  {
  }

  /** Without caller properties each mode gets exactly its defaults. */
  lemma NoPropsGivesDefaults(mode: Option<JsValue>)
    requires Material(mode, map[]).Some?
    ensures Material(mode, map[]).value.props in {FastDefaults, BalancedDefaults, QualityDefaults}
  {
    var e: map<string, JsValue> := map[];
    SpreadLaws(FastDefaults, e, "color", Num(0.0));
    SpreadLaws(BalancedDefaults, e, "color", Num(0.0));
    SpreadLaws(QualityDefaults, e, "color", Num(0.0));
  }

  /** A caller's key always wins, colour included; the other defaults and
      the material kind do not depend on the caller's properties. */
  lemma PropsOverrideDefaults(mode: Option<JsValue>, props: map<string, JsValue>, key: string, value: JsValue)
    requires Material(mode, map[]).Some?
    ensures Material(mode, map[key := value]).value.props[key] == value
    ensures Material(mode, props).value.kind == Material(mode, map[]).value.kind
    ensures forall k :: k in Material(mode, map[]).value.props && k !in props ==>
      Material(mode, props).value.props[k] == Material(mode, map[]).value.props[k]
  {
  }
}
