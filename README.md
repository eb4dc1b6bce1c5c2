# LAB64 site logic in Dafny

This project models the small amount of real logic in the LAB64 marketing site, a Next.js
application, and proves properties of it. It covers:

- **Portfolio data access** (`src/lib/portfolio.ts`, `src/types/portfolio.ts`): the company
  record, the documented field constraints, and the in-place stable sort by `displayOrder`.
  It also covers the active/focus filters and the lookup by id.
- **Portfolio presentation** (`CompanyGrid.tsx`, `CompanyCard.tsx`): the company-to-card
  mapping, the "Visit Website" link and "Coming Soon" badge, clickability and link wrapping,
  the brand-colour fallbacks, the initial glyph and the tilt state.
- **Carousel** (`apple-cards-carousel.tsx`): the scroll flags, the ±300 paging, and the
  re-centring offset after a card closes. It also covers each card's open state with the page
  scroll lock, the hover counter and the image loading flags.
- **Morphing dialog** (`morphing-dialog.tsx`): the open/closed machine, its Escape listener
  and scroll lock, the fail-fast context hook, and the layout ids derived from one unique id.
- **Selection and lookup tables**: the logo demo's tier filter, tier buttons and preview
  toggle; the layered shader table with its fallback lookup; the shader dropdown; and the
  hero's choice between the WebGL shader and the CSS gradient.
- **String helpers**: `truncate`, with `String.prototype.slice` and `trim` as ECMA-262
  defines them. Also the structured-data block, whose serialised schema has every `<`
  escaped.

## Layout

- `options.dfy` (`Options`) holds `Option`, `Result` and JavaScript truthiness of an
  optional string.
- `sequences.dfy` (`Sequences`) holds `Filter`, `Find` and the order-keeping de-duplication
  `Distinct`, which models `new Set(...)`.
- `dom.dfy` (`Dom`) holds the page body's `overflow`, which the card and the dialog both
  write.
- Each remaining file models one source file:
  - `portfolio_types.dfy` and `portfolio.dfy`
  - `company_grid.dfy` and `company_card.dfy`
  - `carousel.dfy`
  - `morphing_dialog.dfy`
  - `logo_demo.dfy`
  - `layered_shader_configs.dfy` and `shader_selector.dfy`
  - `hero_background.dfy`
  - `utils.dfy`
  - `organization_schema.dfy`

The model keeps the source's form:

- Component state that handlers update becomes a class with those fields, and handlers
  become methods with `modifies` clauses. The page body is an object shared by the card or
  dialog that writes it.
- `getAllCompanies` sorts an `array` in place. It is proved equal to a functional stable
  sort, `SortByDisplayOrder`, and the sort's properties are proved as lemmas about that
  function.
- Constant tables and pure expressions become constants and functions.

A React state setter does nothing when the value is unchanged. An effect with `[open]` in
its dependency list therefore re-runs, cleanup first, only when `open` changes. The
`SetOpen` methods model exactly this.

## Model

| member | source | states |
|---|---|---|
| Portfolio.PortfolioStore.constructor | src/lib/portfolio.ts:9 | the stored array holds the document's companies in document order; version and timestamp are kept |
| Portfolio.PortfolioStore.GetAllCompanies | src/lib/portfolio.ts:15-17 | the stored array itself becomes the stable sort by `displayOrder` of its previous contents and is returned; its length is the company count |
| Portfolio.SortInPlace | src/lib/portfolio.ts:16 | the in-place sort leaves the array equal to `SortByDisplayOrder` of its initial contents |
| Portfolio.InsertInPlace | src/lib/portfolio.ts:16 | one insertion step places `a[i]` into the sorted prefix and leaves the suffix untouched |
| Portfolio.SortSorted | src/lib/portfolio.ts:16 | the result is non-decreasing in `displayOrder`, so a lower `displayOrder` always comes earlier |
| Portfolio.SortPermutes | src/lib/portfolio.ts:16 | the result is a permutation of the input: same elements, each as often, same length |
| Portfolio.SortStable | src/lib/portfolio.ts:16 | companies with equal `displayOrder` keep their relative order |
| Portfolio.SortIsTheStableSort | src/lib/portfolio.ts:16 | any sorted rearrangement that keeps equal keys in order equals `SortByDisplayOrder`, so every stable sort gives the same order |
| Portfolio.SortIdempotent | src/lib/portfolio.ts:16 | sorting the already sorted array gives the same order, so a second call returns what the first did |
| Portfolio.SortOfSorted | src/lib/portfolio.ts:16 | an array already ordered by `displayOrder` is left unchanged |
| Portfolio.SortExample | src/lib/portfolio.ts:16 | display orders 3, 1, 2 come back as 1, 2, 3 |
| Portfolio.InsertSorted | src/lib/portfolio.ts:16 | inserting into a sorted sequence keeps it sorted |
| Portfolio.InsertStable | src/lib/portfolio.ts:16 | insertion keeps the order among equal keys that appending would give |
| Portfolio.PortfolioStore.GetActiveCompanies | src/lib/portfolio.ts:23-25 | sorts the store, then returns exactly the sorted companies that are not coming soon, in sorted order |
| Portfolio.PortfolioStore.GetCompaniesByFocus | src/lib/portfolio.ts:41-43 | sorts the store, then returns exactly the sorted companies in the focus area, in sorted order |
| Portfolio.FilterKeepsSorted | src/lib/portfolio.ts:24 | a filtered sorted sequence is still sorted, so both filters return companies in display order |
| Portfolio.PortfolioStore.GetCompanyById | src/lib/portfolio.ts:32-34 | none exactly when no stored company has the id; otherwise the first one in the array's current order that has it; never fails |
| Portfolio.LookupUnambiguous | src/types/portfolio.ts:7-11 | with unique ids, the lookup returns the one company with that id, before and after sorting |
| PortfolioTypes.ValidAssetPathsDistinct | src/types/portfolio.ts:47-59 | with the documented path patterns and unique ids, no two companies share a logo or background path |
| CompanyGrid.Cards | src/components/portfolio/CompanyGrid.tsx:13-46 | one card per company, in order; card i has index i and the company's id as key |
| CompanyGrid.CardFields | src/components/portfolio/CompanyGrid.tsx:14-25 | card i takes its image, title, category, tagline and description from company i's background image, name, focus area, tagline and description |
| CompanyGrid.LinkAndBadge | src/components/portfolio/CompanyGrid.tsx:26-40 | the link appears iff the website is non-empty and not coming soon, pointing at the website; the badge appears iff coming soon; never both |
| CompanyGrid.LinkIffClickable | src/components/portfolio/CompanyGrid.tsx:26-35 | the grid shows a link exactly for the companies whose stand-alone card is clickable, with the same address |
| CompanyCard.Render | src/components/portfolio/CompanyCard.tsx:105-118 | the card is wrapped in a link iff clickable; the link has the website as href, target `_blank` and rel `noopener noreferrer`; the body is always the company's |
| CompanyCard.ComingSoonIsPlain | src/components/portfolio/CompanyCard.tsx:118 | a coming-soon card, or one with a null website, is not clickable and is returned without a link |
| CompanyCard.SpotlightColor | src/components/portfolio/CompanyCard.tsx:37 | brand colour plus `40` when a brand colour is set, else `rgba(255, 255, 255, 0.15)` |
| CompanyCard.BorderColor | src/components/portfolio/CompanyCard.tsx:51 | brand colour when set, else `#667eea`; never empty |
| CompanyCard.SpotlightExtendsBorder | src/components/portfolio/CompanyCard.tsx:37 | with a brand colour the spotlight colour is the border colour followed by an alpha suffix |
| CompanyCard.InitialGlyph | src/components/portfolio/CompanyCard.tsx:78 | at most one character; empty iff the name is; otherwise the name's first character, so the name starts with it |
| CompanyCard.Tilt.constructor | src/components/portfolio/CompanyCard.tsx:15 | tilt starts at (0, 0) |
| CompanyCard.Tilt.MouseMove | src/components/portfolio/CompanyCard.tsx:17-29 | stores the computed rotation when the card is mounted; unchanged otherwise |
| CompanyCard.Tilt.MouseLeave | src/components/portfolio/CompanyCard.tsx:31-33 | tilt returns to exactly (0, 0) |
| Dom.LockFor | src/components/ui/apple-cards-carousel.tsx:190-194 | the overflow written is `hidden` iff open and `auto` iff closed |
| AppleCardsCarousel.ScrollBounds | src/components/ui/apple-cards-carousel.tsx:65-71 | at the left end only right scrolling is possible, at the right end only left scrolling, and neither when the content fits |
| AppleCardsCarousel.CardPitch | src/components/ui/apple-cards-carousel.tsx:85-100 | card width plus gap is 230 + 4 below a 768-pixel viewport and 384 + 8 otherwise |
| AppleCardsCarousel.CloseOffsetDeterminesCard | src/components/ui/apple-cards-carousel.tsx:85-96 | `(W+G)*(i+1)` is a positive multiple of the pitch, strictly increasing in i, and i can be read back from it |
| AppleCardsCarousel.Carousel.constructor | src/components/ui/apple-cards-carousel.tsx:54-56 | starts unable to scroll left, able to scroll right, at index 0, with no scroll commands |
| AppleCardsCarousel.Carousel.LeftDisabled | src/components/ui/apple-cards-carousel.tsx:150-159 | the left button is disabled iff `canScrollLeft` is false |
| AppleCardsCarousel.Carousel.RightDisabled | src/components/ui/apple-cards-carousel.tsx:150-159 | the right button is disabled iff `canScrollRight` is false |
| AppleCardsCarousel.Carousel.CheckScrollability | src/components/ui/apple-cards-carousel.tsx:65-71 | with a container, `canScrollLeft` iff offset > 0 and `canScrollRight` iff offset < scrollWidth − clientWidth; without one nothing changes |
| AppleCardsCarousel.Carousel.Mount | src/components/ui/apple-cards-carousel.tsx:58-63 | with a container, sets the initial scroll offset and then recomputes both flags; without one nothing changes |
| AppleCardsCarousel.Carousel.ScrollLeft | src/components/ui/apple-cards-carousel.tsx:73-77 | issues one scroll by −300 when mounted and nothing otherwise; the flags and index are unchanged |
| AppleCardsCarousel.Carousel.ScrollRight | src/components/ui/apple-cards-carousel.tsx:79-83 | issues one scroll by +300 when mounted and nothing otherwise; the flags and index are unchanged |
| AppleCardsCarousel.Carousel.HandleCardClose | src/components/ui/apple-cards-carousel.tsx:85-96 | when mounted, scrolls to `(W+G)*(i+1)` and sets the current index to i; when unmounted, changes nothing |
| AppleCardsCarousel.Card.constructor | src/components/ui/apple-cards-carousel.tsx:177-179 | closed, not hovered, counter 0; the first effect run writes `auto`, so the lock matches the state |
| AppleCardsCarousel.Card.SetOpen | src/components/ui/apple-cards-carousel.tsx:183-198 | on a change of `open` the effect writes `hidden` or `auto` for the new value; an unchanged value writes nothing; the lock invariant is kept |
| AppleCardsCarousel.Card.HandleOpen | src/components/ui/apple-cards-carousel.tsx:202-204 | the card is open and the page locked |
| AppleCardsCarousel.Card.HandleClose | src/components/ui/apple-cards-carousel.tsx:206-209 | the card is closed, and the carousel is told its index even if it was already closed; with no carousel the default context does nothing |
| AppleCardsCarousel.Card.KeyDown | src/components/ui/apple-cards-carousel.tsx:183-198 | Escape closes the card whether or not it was open, releases the page lock only when the card was open, and, with the carousel mounted, scrolls it to the card and makes the card current, leaving the carousel untouched when it is not mounted; other keys change nothing; hover, counter and scroll flags are never touched |
| AppleCardsCarousel.Card.OutsideClick | src/components/ui/apple-cards-carousel.tsx:200 | on an open card, closes it, unlocks the page and (with the carousel mounted) scrolls to it and makes it current; on a closed card changes nothing; hover, counter and scroll flags are never touched |
| AppleCardsCarousel.Card.MouseEnter | src/components/ui/apple-cards-carousel.tsx:287-290 | hovered, and the animation counter grows by exactly one |
| AppleCardsCarousel.Card.MouseLeave | src/components/ui/apple-cards-carousel.tsx:291 | not hovered; the counter is unchanged, so it never decreases |
| AppleCardsCarousel.AltText | src/components/ui/apple-cards-carousel.tsx:355 | the given alt text when truthy, else the fixed description; never empty |
| AppleCardsCarousel.BlurImage.constructor | src/components/ui/apple-cards-carousel.tsx:334-341 | loading, no error, transparent |
| AppleCardsCarousel.BlurImage.OnLoad | src/components/ui/apple-cards-carousel.tsx:344 | loading ends, the error flag is kept, and the image is visible |
| AppleCardsCarousel.BlurImage.OnError | src/components/ui/apple-cards-carousel.tsx:345-348 | the error is recorded, loading ends, and the image is visible |
| MorphingDialogCore.UseMorphingDialog | src/components/core/morphing-dialog.tsx:27-35 | fails exactly when there is no provider, with the fixed message; otherwise returns the provider's context |
| MorphingDialogCore.MorphingDialog.Context | src/components/core/morphing-dialog.tsx:51-57 | the context the provider shares carries its open flag and unique id, and the hook returns it |
| MorphingDialogCore.DescriptionLayoutId | src/components/core/morphing-dialog.tsx:279 | there is no description layout id iff layout animation is disabled |
| MorphingDialogCore.LayoutIdsOfOneDialog | src/components/core/morphing-dialog.tsx:92 | trigger and content share `dialog-<id>`; the trigger, image, title, subtitle and description ids are pairwise different |
| MorphingDialogCore.LayoutIdsSeparateDialogs | src/components/core/morphing-dialog.tsx:208 | dialogs with different unique ids get different ids of every kind |
| MorphingDialogCore.MorphingDialog.constructor | src/components/core/morphing-dialog.tsx:46 | starts closed, with no Escape listener and the page body set to `auto` |
| MorphingDialogCore.MorphingDialog.SetOpen | src/components/core/morphing-dialog.tsx:114-132 | on a change, cleanup then re-run leaves the listener registered and the page locked exactly while open; an unchanged value changes nothing |
| MorphingDialogCore.MorphingDialog.TriggerClick | src/components/core/morphing-dialog.tsx:85-87 | a trigger click opens the dialog, locks the page and registers the listener; on an open dialog nothing else changes |
| MorphingDialogCore.MorphingDialog.CloseClick | src/components/core/morphing-dialog.tsx:300 | the close button leaves the dialog closed; on a closed dialog nothing changes |
| MorphingDialogCore.MorphingDialog.KeyDown | src/components/core/morphing-dialog.tsx:115-119 | Escape with the listener registered closes the dialog (and an open one is unlocked and its listener removed); without the listener, or for any other key, nothing changes |
| MorphingDialogCore.MorphingDialog.OutsideClick | src/components/core/morphing-dialog.tsx:134-136 | closes the dialog only when open; on a closed dialog nothing changes |
| MorphingDialogCore.MorphingDialog.Unmount | src/components/core/morphing-dialog.tsx:128-131 | cleanup removes the listener and sets `auto` unconditionally |
| LogoDemo.FilteredEffects | src/app/logo-demo/page.tsx:128-130 | with filter `all` the list is the whole table in order |
| LogoDemo.FilteredEffectsMembers | src/app/logo-demo/page.tsx:128-130 | an effect is shown iff it is in the table and the filter is `all`, its tier is the filter, or it is recommended |
| LogoDemo.RecommendedAlwaysShown | src/app/logo-demo/page.tsx:130 | recommended effects are shown under every filter |
| LogoDemo.FilteredEffectsFromTable | src/app/logo-demo/page.tsx:130 | everything shown comes from the table |
| LogoDemo.Tiers | src/app/logo-demo/page.tsx:132 | `all` first, then every tier of the table and nothing else, each once |
| LogoDemo.TiersValue | src/app/logo-demo/page.tsx:132 | the buttons are `all` and then the tiers in first-occurrence order: Tier 1, Tier 2, Tier 4, Tier 3, Current Implementation |
| Sequences.Distinct | src/app/logo-demo/page.tsx:132 | de-duplication keeps every element and holds no element twice |
| Sequences.DistinctFirstOccurrenceOrder | src/app/logo-demo/page.tsx:132 | de-duplicated elements appear in the order of their first occurrence, as `Set` insertion order does |
| LogoDemo.EveryTierButtonShowsItsTier | src/app/logo-demo/page.tsx:164 | each tier button's filter shows at least one effect of that tier |
| LogoDemo.FindEffect | src/app/logo-demo/page.tsx:269 | the lookup returns a table entry with that id, and none iff no entry has it |
| LogoDemo.EffectIdsDistinct | src/app/logo-demo/page.tsx:27-122 | the table's ids are pairwise different |
| LogoDemo.FindEffectOfTableEntry | src/app/logo-demo/page.tsx:285 | looking up a table entry's id finds exactly that entry |
| LogoDemo.ToggleTwice | src/app/logo-demo/page.tsx:191 | a click selects the card iff it was not selected; two clicks restore the selection to none or to the card |
| LogoDemo.LogoDemoPage.constructor | src/app/logo-demo/page.tsx:125-126 | nothing selected, filter `all` |
| LogoDemo.LogoDemoPage.ClickEffect | src/app/logo-demo/page.tsx:191 | the selection becomes none if the card was selected and the card's id otherwise; the filter is kept |
| LogoDemo.LogoDemoPage.Preview | src/app/logo-demo/page.tsx:258 | the preview shows nothing unless the selection is truthy, and otherwise exactly the table lookup of the selected id, an effect with that id |
| LogoDemo.LogoDemoPage.ClosePreview | src/app/logo-demo/page.tsx:276 | the selection is cleared and the preview shows nothing |
| LogoDemo.LogoDemoPage.SelectTier | src/app/logo-demo/page.tsx:164 | the filter becomes the button's tier and the selection is kept |
| LogoDemo.ClickOpensPreview | src/app/logo-demo/page.tsx:191 | clicking an unselected table entry opens the preview on that entry, and clicking it again closes it |
| LayeredShaderConfigs.ConfigsMatchUnion | src/components/hero/LayeredShaderConfigs.tsx:207-240 | one entry per union member, in the union's order, with no value twice |
| LayeredShaderConfigs.GetLayeredShader | src/components/hero/LayeredShaderConfigs.tsx:242-245 | a matching entry's component when one exists, `MeshWireframe` when none does |
| LayeredShaderConfigs.FallbackUnreachable | src/components/hero/LayeredShaderConfigs.tsx:244 | for every union member an entry matches, so the fallback is never taken |
| LayeredShaderConfigs.GetLayeredShaderInjective | src/components/hero/LayeredShaderConfigs.tsx:243 | different union members select different components |
| LayeredShaderConfigs.MeshWireframeIsFallback | src/components/hero/LayeredShaderConfigs.tsx:244 | an unknown type gives the same component as `mesh-wireframe` |
| ShaderSelectorCore.OptionsMatchConfigs | src/components/ui/ShaderSelector.tsx:11-44 | the options match the layered table entry for entry: same value, label and description, same order |
| ShaderSelectorCore.OptionValuesAreTheUnion | src/components/ui/ShaderSelector.tsx:11-44 | the option values are the union members, each once, in order |
| ShaderSelectorCore.HighlightUnique | src/components/ui/ShaderSelector.tsx:56-58 | at most one option is highlighted, and one is iff the current shader is a union member |
| ShaderSelectorCore.CurrentOption | src/components/ui/ShaderSelector.tsx:93 | the option whose value is the current shader, and none iff no option has it |
| ShaderSelectorCore.CurrentOptionOfShaderType | src/components/ui/ShaderSelector.tsx:93 | every union member has its own option as the current option |
| ShaderSelectorCore.ShaderSelector.constructor | src/components/ui/ShaderSelector.tsx:91 | the dropdown starts closed and nothing has been reported |
| ShaderSelectorCore.ShaderSelector.Toggle | src/components/ui/ShaderSelector.tsx:99 | the toggle flips `isOpen` |
| ShaderSelectorCore.ShaderSelector.BackdropClick | src/components/ui/ShaderSelector.tsx:126-129 | a backdrop click closes the dropdown |
| ShaderSelectorCore.ShaderSelector.Select | src/components/ui/ShaderSelector.tsx:149 | the option's value is reported to the parent exactly once, then the dropdown closes |
| ShaderSelectorCore.SelectedValueIsShaderType | src/components/ui/ShaderSelector.tsx:54 | every reported value is a union member whose lookup does not fall back |
| HeroBackgroundCore.HasWebGL | src/components/hero/HeroBackground.tsx:27-37 | WebGL is available iff the first context is obtained, or it is null and the experimental one is obtained; an exception means no WebGL |
| HeroBackgroundCore.HeroBackground.constructor | src/components/hero/HeroBackground.tsx:17-19 | the shader type defaults to `mesh-wireframe`; not mounted; the gradient is rendered whatever the WebGL support |
| HeroBackgroundCore.HeroBackground.Render | src/components/hero/HeroBackground.tsx:44 | the shader is rendered iff mounted with WebGL in use, and it is exactly `getLayeredShader(shaderType)` |
| HeroBackgroundCore.HeroBackground.MountEffect | src/components/hero/HeroBackground.tsx:21-41 | after mount, the shader is rendered iff WebGL is available and the viewport is at least 768 pixels wide |
| HeroBackgroundCore.DefaultRendersMeshWireframe | src/components/hero/HeroBackground.tsx:17 | the default type selects the mesh wireframe shader |
| TextUtils.Trim | src/lib/utils.ts:29 | `trim` result is no longer than its input and neither starts nor ends with white space |
| TextUtils.TrimSlice | src/lib/utils.ts:29 | `trim` returns a contiguous slice of its input with only white space before and after it |
| TextUtils.TrimUnique | src/lib/utils.ts:29 | trimming white space + trimmed middle + white space gives back that middle |
| TextUtils.TrimIdempotent | src/lib/utils.ts:29 | trimming twice equals trimming once |
| TextUtils.SliceEnd | src/lib/utils.ts:29 | `slice(0, n)` ends at n clamped to the length, and a negative n counts from the end |
| TextUtils.Truncate | src/lib/utils.ts:27-30 | for any limit, negative ones included, cut text ends with `...` and is at most three characters longer than the part `slice` keeps; `TruncateShape` and `TruncateShortIdentity` give the full shape |
| TextUtils.TruncateShape | src/lib/utils.ts:29 | when cutting, the result ends with `...`, is at most the limit plus 3 long, and its core is a trimmed slice of the first `length` characters with only white space around it |
| TextUtils.TruncateShortIdentity | src/lib/utils.ts:28 | short text is returned unchanged |
| OrganizationSchema.EscapeLt | src/components/seo/OrganizationSchema.tsx:54 | the result holds no `<`, and its length is the input's plus 5 per `<` |
| OrganizationSchema.EscapeLtAppend | src/components/seo/OrganizationSchema.tsx:54 | escaping distributes over concatenation, so each character is replaced in place and in order |
| OrganizationSchema.EscapeLtIdentity | src/components/seo/OrganizationSchema.tsx:54 | text without `<` is copied unchanged |
| OrganizationSchema.EscapeLtIdempotent | src/components/seo/OrganizationSchema.tsx:54 | escaping an escaped text changes nothing |
| OrganizationSchema.EscapeLtChar | src/components/seo/OrganizationSchema.tsx:54 | a `<` becomes the six characters of the escape and any other character is copied; with `EscapeLtAppend` this fixes the result on every text |
| OrganizationSchema.EscapedLtIsUnicodeEscape | src/components/seo/OrganizationSchema.tsx:54 | the replacement is a backslash, `u` and the four hex digits of code point 0x3C, the JSON escape for `<` |
| OrganizationSchema.QuoteString | src/components/seo/OrganizationSchema.tsx:54 | a serialised string literal holds `<` iff the string does |
| OrganizationSchema.StringifyLtFree | src/components/seo/OrganizationSchema.tsx:54 | serialising a value whose keys and strings hold no `<` produces no `<` |
| OrganizationSchema.SchemaLtFree | src/components/seo/OrganizationSchema.tsx:2-48 | no key or string of the schema object holds `<` |
| OrganizationSchema.SchemaHtml | src/components/seo/OrganizationSchema.tsx:54 | the text placed in the script element holds no `<` |
| OrganizationSchema.SchemaEscapingIsIdentity | src/components/seo/OrganizationSchema.tsx:2-54 | for this schema the escaped text equals the plain serialised text |

## Left out

- The portfolio JSON file is not part of this model. `data.companies` is any sequence of
  companies, and `displayOrder` is an integer rather than a floating-point number.
- Portfolio.PortfolioStore.GetAllCompanies: returns a copy of the array's contents. The
  model does not capture that callers share the stored array and can mutate it.
- Portfolio.PortfolioStore.GetCompanyCount and Portfolio.PortfolioStore.GetLastUpdated: plain accessors with no contract of their own.
  The count equals the array length, which sorting cannot change. `GetAllCompanies` states
  this.
- PortfolioTypes.ValidCompany: the documented field constraints are not enforced by the
  program. The model states them as a predicate that lemmas may assume.
- String lengths are counted in characters. JavaScript counts UTF-16 code units, so the
  two differ for characters outside the Basic Multilingual Plane.
- CompanyCard.Tilt.MouseMove: takes the rotation as an input. The floating-point arithmetic
  from the pointer position and the element's bounding box is not modelled.
- Rendering, animation and styling are not modelled: motion/AnimatePresence timing,
  `layout`/`layoutId` animation of carousel cards, class names (`cn`), and
  `isExternalUrl`.
- The browser's smooth scrolling and its clamping of scroll offsets are not modelled. The
  carousel records the scroll commands it issues, and the container's metrics and
  `innerWidth` are inputs.
- AppleCardsCarousel.ScrollMetrics: offsets are integers, while the browser's `scrollLeft`
  is a double. A fractional offset just short of the right end keeps `canScrollRight` true
  in the browser; the model does not represent it.
- `useOutsideClick` is not part of this model. An outside click is an event that the card
  and the dialog receive as a method call.
- AppleCardsCarousel.Card.OutsideClick: assumes the hook ignores events while the element
  it watches is not rendered. The card's panel carries that element only while the card is
  open, so the model acts only on an open card. If the hook fired with no element, a closed
  card would also notify the carousel; the model does not capture that.
- `useId` is not modelled: the dialog's unique id is an input.
- The shader components, their parameters and the WebGL canvas are not modelled. Each
  shader is an opaque tag, and the two `getContext` calls are inputs that may succeed,
  return null or throw.
- Logo animation components are not modelled: random timers, intervals and float
  transforms. Each logo effect's component is a tag.
- TextUtils.Truncate: takes an integer limit. A fractional `length`, which `slice`
  truncates toward zero, is not modelled.
- TextUtils.TruncateShape: stated for limits of zero or more. A negative limit is
  covered only by `Truncate` and `SliceEnd`.
- `JSON.stringify` is modelled only for what the schema uses: strings, arrays and objects
  in insertion order, with no indentation. Numbers, booleans, null and `toJSON` are not
  modelled.
- Static pages and configuration are not modelled: layout, sitemap, navigation, footer and
  the Tailwind/Next configuration.

The model follows the code where the two disagree in behaviour:

- The dialog's effect cleanup sets the page body's overflow to `auto` unconditionally. It
  does not restore the value the page had before the dialog opened.
- The card's Escape listener is registered whether or not the card is open. Escape
  therefore closes every mounted card and calls the carousel's close handler even for cards
  that were already closed.
