/** The material store: the performance mode and the record of
    transmission-material properties, with four updaters. Each updater
    replaces the record as a whole, by object spread or by a fixed literal. */
module MaterialStore {
  import opened Common

  type Props = map<string, JsValue>

  /** The record the store is created with. */
  const InitialProps: Props := map[
    "backside" := Bool(true),
    "samples" := Num(16.0),
    "resolution" := Num(512.0),
    "transmission" := Num(0.95),
    "roughness" := Num(0.1),
    "thickness" := Num(0.5),
    "ior" := Num(1.5),
    "chromaticAberration" := Num(0.05),
    "anisotropy" := Num(0.3),
    "distortion" := Num(0.1),
    "distortionScale" := Num(0.2),
    "temporalDistortion" := Num(0.1),
    "clearcoat" := Num(1.0),
    "attenuationDistance" := Num(0.5),
    "attenuationColor" := Str("#ffffff"),
    "color" := Str("#ffffff")
  ]

  /** The record `resetMaterialProps` installs. */
  const ResetProps: Props := map[
    "backside" := Bool(true),
    "samples" := Num(4.0),
    "resolution" := Num(256.0),
    "transmission" := Num(0.95),
    "roughness" := Num(0.1),
    "thickness" := Num(0.5),
    "ior" := Num(1.5),
    "chromaticAberration" := Num(0.05),
    "anisotropy" := Num(0.3),
    "distortion" := Num(0.1),
    "distortionScale" := Num(0.2),
    "temporalDistortion" := Num(0.1),
    "clearcoat" := Num(1.0),
    "attenuationDistance" := Num(0.5),
    "attenuationColor" := Str("#ffffff"),
    "color" := Str("#ffffff")
  ]

  const InitialMode: string := "balanced"

  /** Resetting does not bring back the initial record: it has the same
      keys and values except for fewer samples and a lower resolution. */
  lemma ResetIsNotInitial()
    ensures ResetProps.Keys == InitialProps.Keys
    ensures ResetProps != InitialProps
    ensures ResetProps["samples"] == Num(4.0) && InitialProps["samples"] == Num(16.0)
    ensures ResetProps["resolution"] == Num(256.0) && InitialProps["resolution"] == Num(512.0)
    ensures ResetProps == InitialProps["samples" := Num(4.0)]["resolution" := Num(256.0)]
  {
    assert ResetProps["samples"] != InitialProps["samples"];
  }

  class MaterialStoreState {
    /** Not checked against 'fast' | 'balanced' | 'quality'. */
    var performanceMode: string
    var materialProps: Props

    constructor ()
      ensures performanceMode == InitialMode && materialProps == InitialProps
    {
      performanceMode := InitialMode;
      materialProps := InitialProps;
    }

    method SetPerformanceMode(mode: string)
      modifies this
      ensures performanceMode == mode
      ensures materialProps == old(materialProps)
    {
      performanceMode := mode;
    }

    /** `{ ...materialProps, [key]: value }`: the key may be new. */
    method UpdateMaterialProp(key: string, value: JsValue)
      modifies this
      ensures materialProps == Spread(old(materialProps), map[key := value])
      ensures materialProps.Keys == old(materialProps.Keys) + {key} && materialProps[key] == value
      ensures forall k :: k in old(materialProps) && k != key ==> materialProps[k] == old(materialProps[k])
      ensures performanceMode == old(performanceMode)
    {
      materialProps := Spread(materialProps, map[key := value]);
    }

    /** `{ ...materialProps, ...props }`. */
    method UpdateMaterialProps(props: Props)
      modifies this
      ensures materialProps == Spread(old(materialProps), props)
      ensures forall k :: k in old(materialProps) && k !in props ==> materialProps[k] == old(materialProps[k])
      ensures performanceMode == old(performanceMode)
    {
      materialProps := Spread(materialProps, props);
    }

    /** Installs the fixed reset record whatever the store held; the mode
        is left alone. */
    method ResetMaterialProps()
      modifies this
      ensures materialProps == ResetProps
      ensures performanceMode == old(performanceMode)
    {
      materialProps := ResetProps;
    }
  }
}
