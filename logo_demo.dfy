/** The logo-effects demo page (`src/app/logo-demo/page.tsx`): the table of logo effects, the
    tier filter (recommended effects always shown), the de-duplicated tier list, the selection
    that toggles a full-screen preview, and the preview's lookup by id. */
module LogoDemo {
  import opened Options
  import opened Sequences

  datatype Performance = Excellent | Great | Good | Moderate
  datatype Interactivity = NoInteractivity | Hover | Periodic | Continuous

  /** The animated component each effect renders (the components themselves are not modelled). */
  datatype LogoComponent =
    | HolographicGlitchLogo | MagneticHoverLogo | NeuralNetworkLogo | GradientShimmerLogo
    | ChromaticAberrationLogo | RotationTiltLogo | GlitchTextLogo | QuantumFlickerLogo
    | DottedGlowLogo | LiquidMetalLogo

  /** One entry of the table; an absent `recommended` flag reads as false. */
  datatype LogoEffect = LogoEffect(
    id: string,
    name: string,
    description: string,
    component: LogoComponent,
    tier: string,
    performance: Performance,
    interactivity: Interactivity,
    recommended: bool)

  const AllTiers: string := "all"
  const Tier1: string := "Tier 1: Subtle & Professional"
  const Tier2: string := "Tier 2: Interactive & Engaging"
  const Tier3: string := "Tier 3: Bold & Futuristic"
  const Tier4: string := "Tier 4: Extreme Innovation"
  const CurrentTier: string := "Current Implementation"

  const LogoEffects: seq<LogoEffect> := [
    LogoEffect("holographic-glitch", "Holographic Glitch",
      "Subtle RGB color split with shimmer and scanline effects. Matches your holographic background perfectly.",
      HolographicGlitchLogo, Tier1, Excellent, Periodic, true),
    LogoEffect("magnetic-hover", "Magnetic Hover",
      "Logo subtly pulls toward cursor on hover with glow effect. Innovative and feels \"alive\".",
      MagneticHoverLogo, Tier2, Good, Hover, true),
    LogoEffect("neural-network", "Neural Network Lines",
      "Animated network graph/nodes connecting through letters. Perfect for AI company!",
      NeuralNetworkLogo, Tier4, Moderate, Periodic, true),
    LogoEffect("gradient-shimmer", "Gradient Shimmer",
      "Animated gradient sweeps across logo like light reflecting off chrome surface.",
      GradientShimmerLogo, Tier1, Great, Continuous, false),
    LogoEffect("chromatic-aberration", "Chromatic Aberration",
      "RGB channels separate on hover creating camera lens distortion effect.",
      ChromaticAberrationLogo, Tier4, Excellent, Hover, false),
    LogoEffect("rotation-tilt", "3D Rotation Tilt",
      "Logo has 3D perspective that responds to mouse movement. Premium Apple-like feel.",
      RotationTiltLogo, Tier2, Excellent, Hover, false),
    LogoEffect("glitch-text", "Glitch Text Animation",
      "Intense data corruption effect with RGB split and horizontal slices. Very tech-forward.",
      GlitchTextLogo, Tier3, Good, Periodic, false),
    LogoEffect("quantum-flicker", "Quantum Flicker",
      "Letters randomly phase in/out like quantum superposition. Unique conversation-starter.",
      QuantumFlickerLogo, Tier4, Good, Continuous, false),
    LogoEffect("dotted-glow", "Dotted Glow Background",
      "Animated glowing dots create a futuristic particle field behind the logo. Inspired by Aceternity UI.",
      DottedGlowLogo, Tier3, Great, Continuous, true),
    LogoEffect("liquid-metal", "Liquid Metal (Current)",
      "Current shader-based effect with diamond pattern and metallic flow.",
      LiquidMetalLogo, CurrentTier, Excellent, Continuous, false)
  ]

  // ---------------------------------------------------------------------------------------
  // Filtering by tier
  // ---------------------------------------------------------------------------------------

  /** The filter a tier button applies: the effect is in that tier, or is recommended. */
  function ShownUnder(tier: string): LogoEffect -> bool {
    (e: LogoEffect) => e.tier == tier || e.recommended
  }

  /** The effects shown in the grid for the selected tier filter. */
  function FilteredEffects(filterTier: string): (r: seq<LogoEffect>)
    ensures filterTier == AllTiers ==> r == LogoEffects
    ensures |r| <= |LogoEffects|
  {
    if filterTier == AllTiers then LogoEffects else Filter(LogoEffects, ShownUnder(filterTier))
  }

  /** An effect is shown exactly when the filter is "all", its tier is the one selected, or it
      is recommended. */
  lemma FilteredEffectsMembers(filterTier: string, e: LogoEffect)
    ensures e in FilteredEffects(filterTier) <==>
              e in LogoEffects && (filterTier == AllTiers || e.tier == filterTier || e.recommended)
  {
    FilterMembers(LogoEffects, ShownUnder(filterTier));
  }

  /** Recommended effects are shown under every filter. */
  lemma RecommendedAlwaysShown(filterTier: string, e: LogoEffect)
    requires e in LogoEffects && e.recommended
    ensures e in FilteredEffects(filterTier)
  {
    FilteredEffectsMembers(filterTier, e);
  }

  /** Every effect shown comes from the table. */
  lemma FilteredEffectsFromTable(filterTier: string)
    ensures forall e :: e in FilteredEffects(filterTier) ==> e in LogoEffects
  {
    forall e | e in FilteredEffects(filterTier)
      ensures e in LogoEffects
    {
      FilteredEffectsMembers(filterTier, e);
    }
  }

  // ---------------------------------------------------------------------------------------
  // Tier buttons
  // ---------------------------------------------------------------------------------------

  /** The tier of each table entry, in table order (`logoEffects.map(e => e.tier)`). */
  function TierColumn(): (r: seq<string>)
    ensures |r| == |LogoEffects|
    ensures forall i :: 0 <= i < |r| ==> r[i] == LogoEffects[i].tier
  {
    seq(|LogoEffects|, i requires 0 <= i < |LogoEffects| => LogoEffects[i].tier)
  }

  /** The tier buttons: "all", then each tier once, in order of first appearance in the table. */
  function Tiers(): (r: seq<string>)
    ensures |r| >= 1 && r[0] == AllTiers
    ensures forall t :: t in r[1..] <==> exists e :: e in LogoEffects && e.tier == t
    ensures NoDuplicates(r[1..])
  {
    var tiers := TierColumn();
    assert forall t :: t in tiers <==> exists e :: e in LogoEffects && e.tier == t by {
      forall t | t in tiers ensures exists e :: e in LogoEffects && e.tier == t {
        var i :| 0 <= i < |tiers| && tiers[i] == t;
        assert LogoEffects[i] in LogoEffects;
      }
      forall t | exists e :: e in LogoEffects && e.tier == t ensures t in tiers {
        var e :| e in LogoEffects && e.tier == t;
        var i :| 0 <= i < |LogoEffects| && LogoEffects[i] == e;
        assert tiers[i] == t;
      }
    }
    var r := [AllTiers] + Distinct(tiers);
    assert r[1..] == Distinct(tiers);
    r
  }

  lemma TierColumnValue()
    ensures TierColumn() == [Tier1, Tier2, Tier4, Tier1, Tier4, Tier2, Tier3, Tier4, Tier3, CurrentTier]
  {
  }

  lemma DistinctOfTierColumn()
    ensures Distinct([Tier1, Tier2, Tier4, Tier1, Tier4, Tier2, Tier3, Tier4, Tier3, CurrentTier])
            == [Tier1, Tier2, Tier4, Tier3, CurrentTier]
  {
    DistinctOfPattern(Tier1, Tier2, Tier4, Tier3, CurrentTier);
  }

  /** De-duplication of the table's tier pattern, for any five different tiers. */
  lemma {:induction false} DistinctOfPattern<T(!new)>(a: T, b: T, c: T, d: T, e: T)
    requires a != b && a != c && a != d && a != e && b != c && b != d && b != e
    requires c != d && c != e && d != e
    ensures Distinct([a, b, c, a, c, b, d, c, d, e]) == [a, b, c, d, e]
  {
    DistinctOfFirstSix(a, b, c);
    var s := [a, b, c, a, c, b];
    var abcd := [a, b, c, d];
    StepNew(s, d, [a, b, c]);
    assert [a, b, c] + [d] == abcd;
    StepSeen(s + [d], c, abcd);
    StepSeen(s + [d] + [c], d, abcd);
    StepNew(s + [d] + [c] + [d], e, abcd);
    assert abcd + [e] == [a, b, c, d, e];
    assert s + [d] + [c] + [d] + [e] == [a, b, c, a, c, b, d, c, d, e];
  }

  lemma {:induction false} DistinctOfFirstSix<T(!new)>(a: T, b: T, c: T)
    requires a != b && a != c && b != c
    ensures Distinct([a, b, c, a, c, b]) == [a, b, c]
  {
    var abc := [a, b, c];
    DistinctOfThree(a, b, c);
    StepSeen(abc, a, abc);
    var s4 := abc + [a];
    StepSeen(s4, c, abc);
    var s5 := s4 + [c];
    StepSeen(s5, b, abc);
    assert s5 + [b] == [a, b, c, a, c, b];
  }

  lemma {:induction false} DistinctOfThree<T(!new)>(a: T, b: T, c: T)
    requires a != b && a != c && b != c
    ensures Distinct([a, b, c]) == [a, b, c]
  {
    DistinctOfDistinct([a, b, c]);
  }

  lemma StepNew<T(!new)>(s: seq<T>, x: T, d: seq<T>)
    requires Distinct(s) == d && x !in d
    ensures Distinct(s + [x]) == d + [x]
  {
    DistinctSnoc(s, x);
  }

  lemma StepSeen<T(!new)>(s: seq<T>, x: T, d: seq<T>)
    requires Distinct(s) == d && x in d
    ensures Distinct(s + [x]) == d
  {
    DistinctSnoc(s, x);
  }

  /** The six buttons, in order. */
  lemma TiersValue()
    ensures Tiers() == [AllTiers, Tier1, Tier2, Tier4, Tier3, CurrentTier]
  {
    TierColumnValue();
    DistinctOfTierColumn();
  }

  /** Every tier button shows at least one effect of its own tier. */
  lemma EveryTierButtonShowsItsTier(t: string)
    requires t in Tiers()[1..]
    ensures exists e :: e in FilteredEffects(t) && e.tier == t
  {
    var e :| e in LogoEffects && e.tier == t;
    FilteredEffectsMembers(t, e);
  }

  // ---------------------------------------------------------------------------------------
  // Lookup by id
  // ---------------------------------------------------------------------------------------

  function HasId(id: string): LogoEffect -> bool {
    (e: LogoEffect) => e.id == id
  }

  /** `logoEffects.find(e => e.id === selectedEffect)`. */
  function FindEffect(id: string): (r: Option<LogoEffect>)
    ensures r.Some? ==> r.value in LogoEffects && r.value.id == id
    ensures r.None? <==> forall e :: e in LogoEffects ==> e.id != id
  {
    Find(LogoEffects, HasId(id))
  }

  /** The ids of the table are pairwise different. */
  lemma EffectIdsDistinct()
    ensures forall i, j :: 0 <= i < j < |LogoEffects| ==> LogoEffects[i].id != LogoEffects[j].id
  {
  }

  /** The preview's lookup finds exactly the effect that was clicked. */
  lemma FindEffectOfTableEntry(e: LogoEffect)
    requires e in LogoEffects
    ensures FindEffect(e.id) == Some(e)
  {
    EffectIdsDistinct();
  }

  /** Every id is a non-empty string, so selecting an effect makes the selection truthy. */
  lemma EffectIdsNonEmpty(e: LogoEffect)
    requires e in LogoEffects
    ensures e.id != ""
  {
    var i :| 0 <= i < |LogoEffects| && LogoEffects[i] == e;
    assert |LogoEffects[i].id| > 0;
  }

  // ---------------------------------------------------------------------------------------
  // Page state
  // ---------------------------------------------------------------------------------------

  /** Clicking an effect card: deselects it when it is the selected one, selects it otherwise. */
  function Toggled(selected: Option<string>, id: string): (r: Option<string>)
  {
    if selected == Some(id) then None else Some(id)
  }

  /** Clicking the same card twice restores the selection to none, or to the card itself. */
  lemma ToggleTwice(selected: Option<string>, id: string)
    ensures Toggled(Toggled(selected, id), id) == (if selected == Some(id) then Some(id) else None)
    ensures Toggled(selected, id) == Some(id) <==> selected != Some(id)
  {
  }

  /** The page's two state variables. */
  class LogoDemoPage {
    var selectedEffect: Option<string>
    var filterTier: string

    /** Nothing selected; every tier shown. */
    constructor ()
      ensures selectedEffect == None && filterTier == AllTiers
    {
      selectedEffect, filterTier := None, AllTiers;
    }

    /** Whether the card for `id` is drawn as selected. */
    predicate IsSelected(id: string)
      reads this
    {
      selectedEffect == Some(id)
    }

    /** The effect the full-screen preview shows: only when the selection is truthy, and then
        whatever the lookup by id finds. */
    function Preview(): (r: Option<LogoEffect>)
      reads this
      ensures r.Some? ==> Truthy(selectedEffect) && r.value.id == selectedEffect.value
      ensures !Truthy(selectedEffect) ==> r.None?
      ensures Truthy(selectedEffect) ==> r == FindEffect(selectedEffect.value)
    {
      if Truthy(selectedEffect) then FindEffect(selectedEffect.value) else None
    }

    /** The grid as currently filtered. */
    function Shown(): seq<LogoEffect>
      reads this
    {
      FilteredEffects(filterTier)
    }

    /** A click on an effect card toggles its selection. */
    method ClickEffect(id: string)
      modifies this
      ensures selectedEffect == Toggled(old(selectedEffect), id)
      ensures filterTier == old(filterTier)
    {
      var isSelected := selectedEffect == Some(id);
      selectedEffect := if isSelected then None else Some(id);
    }

    /** The preview's close button clears the selection. */
    method ClosePreview()
      modifies this
      ensures selectedEffect == None && Preview() == None
      ensures filterTier == old(filterTier)
    {
      selectedEffect := None;
    }

    /** A tier button sets the filter. */
    method SelectTier(tier: string)
      modifies this
      ensures filterTier == tier && selectedEffect == old(selectedEffect)
    {
      filterTier := tier;
    }
  }

  /** Clicking a table entry's card while it is not selected opens the preview on that entry;
      clicking it again closes the preview. */
  lemma ClickOpensPreview(selected: Option<string>, e: LogoEffect)
    requires e in LogoEffects && selected != Some(e.id)
    ensures var s := Toggled(selected, e.id);
            Truthy(s) && FindEffect(s.value) == Some(e)
            && Toggled(s, e.id) == None
  {
    FindEffectOfTableEntry(e);
    EffectIdsNonEmpty(e);
  }
}
