/** The floating shader picker (`src/components/ui/ShaderSelector.tsx`): its option table, the
    current option's lookup and highlight, and the dropdown's open state. The parent's
    `onShaderChange` callback is modelled as the sequence of values it has received. */
module ShaderSelectorCore {
  import opened Options
  import opened Sequences
  import opened LayeredShaderConfigs

  datatype ShaderOption = ShaderOption(
    value: string,
    labelText: string,  // `label` in the source; `label` is a Dafny keyword
    description: string,
    category: Option<string>)

  const ShaderOptions: seq<ShaderOption> := [
    ShaderOption("mesh-wireframe", "Mesh Wireframe",
      "Dual mesh layers with violet/purple depth", Some("Favorites")),
    ShaderOption("spiral-smoke", "Spiral Smoke",
      "Spiraling energy with atmospheric smoke", Some("Favorites")),
    ShaderOption("neon-mesh-glow", "Neon Mesh Glow",
      "Dual mesh with screen blend additive glow", Some("Favorites")),
    ShaderOption("neural-fusion", "Neural Fusion",
      "Neural base with overlay texture blend", Some("Favorites")),
    ShaderOption("holographic-data-field", "Holographic Data Field",
      "Rainbow color panels with dithering overlay", Some("Favorites"))
  ]

  /** The picker offers exactly the hero's layered configurations, entry for entry and in the
      same order, with the same value, label and description. */
  lemma OptionsMatchConfigs()
    ensures |ShaderOptions| == |Configs|
    ensures forall i :: 0 <= i < |ShaderOptions| ==>
              ShaderOptions[i].value == Configs[i].value
              && ShaderOptions[i].labelText == Configs[i].labelText
              && ShaderOptions[i].description == Configs[i].description
  {
  }

  /** The option values are the union members, each once. */
  lemma OptionValuesAreTheUnion()
    ensures forall i :: 0 <= i < |ShaderOptions| ==> ShaderOptions[i].value == LayeredShaderTypes[i]
    ensures |ShaderOptions| == |LayeredShaderTypes|
  {
    OptionsMatchConfigs();
    ConfigsMatchUnion();
  }

  /** Whether an option is drawn highlighted and check-marked. */
  predicate IsHighlighted(currentShader: string, option: ShaderOption) {
    currentShader == option.value
  }

  /** A shader type names exactly one highlighted option; any other string names none. */
  lemma HighlightUnique(currentShader: string)
    ensures forall i, j :: 0 <= i < j < |ShaderOptions| ==>
              !(IsHighlighted(currentShader, ShaderOptions[i]) && IsHighlighted(currentShader, ShaderOptions[j]))
    ensures IsLayeredShaderType(currentShader) <==>
              exists i :: 0 <= i < |ShaderOptions| && IsHighlighted(currentShader, ShaderOptions[i])
  {
    OptionValuesAreTheUnion();
    ConfigsMatchUnion();
    if IsLayeredShaderType(currentShader) {
      var i := IndexOfType(currentShader);
      assert IsHighlighted(currentShader, ShaderOptions[i]);
    }
  }

  function HasOptionValue(v: string): ShaderOption -> bool {
    (o: ShaderOption) => o.value == v
  }

  /** `currentOption`: the option whose value is the current shader, if any. */
  function CurrentOption(currentShader: string): (r: Option<ShaderOption>)
    ensures r.Some? ==> r.value in ShaderOptions && IsHighlighted(currentShader, r.value)
    ensures r.None? <==> forall i :: 0 <= i < |ShaderOptions| ==> !IsHighlighted(currentShader, ShaderOptions[i])
  {
    Find(ShaderOptions, HasOptionValue(currentShader))
  }

  /** For every member of the union, the button shows that member's option. */
  lemma CurrentOptionOfShaderType(currentShader: string)
    requires IsLayeredShaderType(currentShader)
    ensures CurrentOption(currentShader).Some?
    ensures CurrentOption(currentShader).value == ShaderOptions[IndexOfType(currentShader)]
  {
    HighlightUnique(currentShader);
    OptionValuesAreTheUnion();
  }

  /** The dropdown's state, and the values passed to `onShaderChange` so far. */
  class ShaderSelector {
    var isOpen: bool
    var changes: seq<string>

    /** The dropdown starts closed. */
    constructor ()
      ensures !isOpen && changes == []
    {
      isOpen, changes := false, [];
    }

    /** The toggle button flips the dropdown. */
    method Toggle()
      modifies this
      ensures isOpen == !old(isOpen) && changes == old(changes)
    {
      isOpen := !isOpen;
    }

    /** A click on the backdrop closes the dropdown. */
    method BackdropClick()
      modifies this
      ensures !isOpen && changes == old(changes)
    {
      isOpen := false;
    }

    /** Choosing an option reports its value to the parent once, then closes the dropdown. */
    method Select(option: ShaderOption)
      modifies this
      ensures changes == old(changes) + [option.value]
      ensures !isOpen
    {
      changes := changes + [option.value];
      isOpen := false;
    }
  }

  /** Every value the picker reports is a union member: the options are exactly the table. */
  lemma SelectedValueIsShaderType(option: ShaderOption)
    requires option in ShaderOptions
    ensures IsLayeredShaderType(option.value)
    ensures GetLayeredShader(option.value) != MeshWireframe || option.value == "mesh-wireframe"
  {
    OptionValuesAreTheUnion();
    var i :| 0 <= i < |ShaderOptions| && ShaderOptions[i] == option;
    assert LayeredShaderTypes[i] == option.value;
    FallbackUnreachable(option.value);
    if option.value != "mesh-wireframe" {
      GetLayeredShaderInjective(option.value, "mesh-wireframe");
      FallbackUnreachable("mesh-wireframe");
    }
  }
}
