/** The portfolio card (`src/components/portfolio/CompanyCard.tsx`): whether it is clickable,
    the outbound-link wrapping, the colour fallbacks, the initial glyph and the tilt state. */
module CompanyCard {
  import opened Options
  import opened PortfolioTypes

  /** `!company.comingSoon && company.websiteUrl`, read as a boolean. */
  predicate IsClickable(c: Company) {
    !c.comingSoon && Truthy(c.websiteUrl)
  }

  /** An outbound anchor: its href, target and rel attributes. */
  datatype Anchor = Anchor(href: string, target: string, rel: string)

  /** The rendered card: the card body, wrapped in an anchor or not. */
  datatype CardView = Linked(anchor: Anchor, body: Company) | Plain(body: Company)

  const BlankTarget: string := "_blank"
  const SafeRel: string := "noopener noreferrer"

  /** Whether and how the card body is wrapped in a link. */
  function Render(c: Company): (v: CardView)
    ensures v.body == c
    ensures v.Linked? <==> IsClickable(c)
    ensures v.Linked? ==> c.websiteUrl.Some? && v.anchor.href == c.websiteUrl.value && v.anchor.href != ""
                          && v.anchor.target == "_blank" && v.anchor.rel == "noopener noreferrer"
  {
    if IsClickable(c) && Truthy(c.websiteUrl) then
      Linked(Anchor(c.websiteUrl.value, BlankTarget, SafeRel), c)
    else
      Plain(c)
  }

  /** A card that is coming soon, or has no website, is never wrapped in a link. */
  lemma ComingSoonIsPlain(c: Company)
    requires c.comingSoon || c.websiteUrl.None?
    ensures Render(c) == Plain(c)
    ensures !IsClickable(c)
  {
  }

  const DefaultSpotlight: string := "rgba(255, 255, 255, 0.15)"
  const DefaultBorder: string := "#667eea"
  /** The alpha suffix appended to the brand colour for the spotlight (hex `40`, one quarter). */
  const SpotlightAlpha: string := "40"

  /** The spotlight colour: the brand colour with alpha `40`, or a translucent white. */
  function SpotlightColor(c: Company): (r: string)
    ensures Truthy(c.brandColor) ==> r == c.brandColor.value + "40" && |r| == |c.brandColor.value| + 2
    ensures !Truthy(c.brandColor) ==> r == "rgba(255, 255, 255, 0.15)"
  {
    if Truthy(c.brandColor) then c.brandColor.value + SpotlightAlpha else DefaultSpotlight
  }

  /** The border colour: the brand colour, or `#667eea`. */
  function BorderColor(c: Company): (r: string)
    ensures r != ""
    ensures Truthy(c.brandColor) ==> r == c.brandColor.value
    ensures !Truthy(c.brandColor) ==> r == "#667eea"
  {
    if Truthy(c.brandColor) then c.brandColor.value else DefaultBorder
  }

  /** The spotlight colour extends the border colour whenever a brand colour is set. */
  lemma SpotlightExtendsBorder(c: Company)
    requires Truthy(c.brandColor)
    ensures SpotlightColor(c)[..|BorderColor(c)|] == BorderColor(c)
  {
  }

  /** The placeholder glyph `name.charAt(0)`: the first character, or "" for an empty name. */
  function InitialGlyph(name: string): (r: string)
    ensures |r| <= 1
    ensures r == "" <==> name == ""
    ensures r != "" ==> r[0] == name[0]
    ensures name == r + name[|r|..]
  {
    if name == "" then "" else [name[0]]
  }

  /** The card's tilt state, in degrees about the x and y axes. */
  class Tilt {
    var x: real
    var y: real

    /** `useState({ x: 0, y: 0 })`. */
    constructor ()
      ensures x == 0.0 && y == 0.0
    {
      x, y := 0.0, 0.0;
    }

    /** `handleMouseMove`: stores the rotation computed from the pointer position, or does
        nothing while the card element is not mounted. The rotation arithmetic is an input. */
    method MouseMove(mounted: bool, rotateX: real, rotateY: real)
      modifies this
      ensures mounted ==> x == rotateX && y == rotateY
      ensures !mounted ==> x == old(x) && y == old(y)
    {
      if !mounted {
        return;
      }
      x, y := rotateX, rotateY;
    }

    /** `handleMouseLeave`: returns to exactly (0, 0). */
    method MouseLeave()
      modifies this
      ensures x == 0.0 && y == 0.0
    {
      x, y := 0.0, 0.0;
    }
  }
}
