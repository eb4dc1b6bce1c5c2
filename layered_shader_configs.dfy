/** The hero's layered shader table (`src/components/hero/LayeredShaderConfigs.tsx`): the
    `LayeredShaderType` union, one configuration per member, and the lookup by value with its
    `MeshWireframe` fallback. The shader components themselves are opaque tags here. */
module LayeredShaderConfigs {
  import opened Options
  import opened Sequences

  /** The members of the `LayeredShaderType` union, in declaration order. At run time a
      shader type is a plain string, so the model takes any string and says which are members. */
  const LayeredShaderTypes: seq<string> :=
    ["mesh-wireframe", "spiral-smoke", "neon-mesh-glow", "neural-fusion", "holographic-data-field"]

  predicate IsLayeredShaderType(t: string) {
    t in LayeredShaderTypes
  }

  /** The layered shader components of the table. */
  datatype ShaderComponent = MeshWireframe | SpiralSmoke | NeonMeshGlow | NeuralFusion | HolographicDataField

  datatype LayeredShaderConfig = LayeredShaderConfig(
    value: string,
    labelText: string,  // `label` in the source; `label` is a Dafny keyword
    description: string,
    component: ShaderComponent)

  const Configs: seq<LayeredShaderConfig> := [
    LayeredShaderConfig("mesh-wireframe", "Mesh Wireframe",
      "Dual mesh layers with violet/purple depth", MeshWireframe),
    LayeredShaderConfig("spiral-smoke", "Spiral Smoke",
      "Spiraling energy with atmospheric smoke", SpiralSmoke),
    LayeredShaderConfig("neon-mesh-glow", "Neon Mesh Glow",
      "Dual mesh with screen blend additive glow", NeonMeshGlow),
    LayeredShaderConfig("neural-fusion", "Neural Fusion",
      "Neural base with overlay texture blend", NeuralFusion),
    LayeredShaderConfig("holographic-data-field", "Holographic Data Field",
      "Rainbow color panels with dithering overlay", HolographicDataField)
  ]

  /** The table has one entry per union member, in the union's order, and no value twice. */
  lemma ConfigsMatchUnion()
    ensures |Configs| == |LayeredShaderTypes|
    ensures forall i :: 0 <= i < |Configs| ==> Configs[i].value == LayeredShaderTypes[i]
    ensures NoDuplicates(LayeredShaderTypes)
  {
  }

  function HasValue(t: string): LayeredShaderConfig -> bool {
    (c: LayeredShaderConfig) => c.value == t
  }

  /** `getLayeredShader(type)`: the component of the first entry whose value is `type`, or
      `MeshWireframe` when none is. */
  function GetLayeredShader(t: string): (r: ShaderComponent)
    ensures (exists i :: 0 <= i < |Configs| && Configs[i].value == t) ==>
              exists i :: 0 <= i < |Configs| && Configs[i].value == t && r == Configs[i].component
    ensures (forall i :: 0 <= i < |Configs| ==> Configs[i].value != t) ==> r == MeshWireframe
  {
    var config := Find(Configs, HasValue(t));
    if config.Some? then config.value.component else MeshWireframe
  }

  /** For every member of the union an entry matches, so the fallback is never taken. */
  lemma FallbackUnreachable(t: string)
    requires IsLayeredShaderType(t)
    ensures Find(Configs, HasValue(t)).Some?
    ensures GetLayeredShader(t) == Configs[IndexOfType(t)].component
  {
    ConfigsMatchUnion();
    var i := IndexOfType(t);
    assert HasValue(t)(Configs[i]);
  }

  /** Position of a union member in declaration order. */
  function IndexOfType(t: string): (i: nat)
    requires IsLayeredShaderType(t)
    ensures i < |LayeredShaderTypes| && LayeredShaderTypes[i] == t
  {
    FirstIndex(LayeredShaderTypes, t)
  }

  /** Different union members select different shaders. */
  lemma GetLayeredShaderInjective(t: string, u: string)
    requires IsLayeredShaderType(t) && IsLayeredShaderType(u) && t != u
    ensures GetLayeredShader(t) != GetLayeredShader(u)
  {
    FallbackUnreachable(t);
    FallbackUnreachable(u);
    ComponentsDistinct(IndexOfType(t), IndexOfType(u));
  }

  /** Each entry has its own component. */
  lemma ComponentsDistinct(i: nat, j: nat)
    requires i < |Configs| && j < |Configs| && i != j
    ensures Configs[i].component != Configs[j].component
  {
  }

  /** `'mesh-wireframe'` selects the same component as the fallback, so an unknown type looks
      like the default one. */
  lemma MeshWireframeIsFallback(t: string)
    requires !IsLayeredShaderType(t)
    ensures GetLayeredShader(t) == MeshWireframe == GetLayeredShader("mesh-wireframe")
  {
    ConfigsMatchUnion();
    FallbackUnreachable("mesh-wireframe");
  }
}
