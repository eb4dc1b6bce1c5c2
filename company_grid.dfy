/** The portfolio grid (`src/components/portfolio/CompanyGrid.tsx`): one carousel card per
    company, with the "Visit Website" link or the "Coming Soon" badge in its content. */
module CompanyGrid {
  import opened Options
  import opened PortfolioTypes
  import CompanyCard

  /** The carousel card built for one company: the fields the carousel reads, the expanded
      content (tagline, description, optional link, optional badge), its React key and index. */
  datatype GridCard = GridCard(
    key: string,
    index: nat,
    src: string,
    title: string,
    category: string,
    tagline: string,
    description: string,
    visitLink: Option<string>,
    comingSoonBadge: bool)

  /** The card content for `c` at position `index`. */
  function ToCard(c: Company, index: nat): GridCard
  {
    GridCard(
      c.id, index, c.backgroundImage, c.name, c.focusArea, c.tagline, c.description,
      if Truthy(c.websiteUrl) && !c.comingSoon then Some(c.websiteUrl.value) else None,
      c.comingSoon)
  }

  /** `companies.map((company, index) => ...)`. */
  function Cards(companies: seq<Company>): (cards: seq<GridCard>)
    ensures |cards| == |companies|
    ensures forall i :: 0 <= i < |cards| ==> cards[i].index == i && cards[i].key == companies[i].id
  {
    seq(|companies|, i requires 0 <= i < |companies| => ToCard(companies[i], i))
  }

  /** Card `i` shows company `i`: image, title and category come from its background image,
      name and focus area. */
  lemma CardFields(companies: seq<Company>, i: nat)
    requires i < |companies|
    ensures var card, c := Cards(companies)[i], companies[i];
            card.src == c.backgroundImage && card.title == c.name && card.category == c.focusArea
            && card.tagline == c.tagline && card.description == c.description
  {
  }

  /** The link is shown exactly when the company has a non-empty website and is not coming
      soon, pointing at that website; the badge exactly when it is coming soon; never both. */
  lemma LinkAndBadge(companies: seq<Company>, i: nat)
    requires i < |companies|
    ensures var card, c := Cards(companies)[i], companies[i];
            && (card.visitLink.Some? <==> Truthy(c.websiteUrl) && !c.comingSoon)
            && (card.visitLink.Some? ==> card.visitLink == c.websiteUrl)
            && (card.comingSoonBadge <==> c.comingSoon)
            && !(card.visitLink.Some? && card.comingSoonBadge)
  {
  }

  /** The grid shows a "Visit Website" link exactly for the companies whose stand-alone card
      would be clickable, and links to the same address. */
  lemma LinkIffClickable(companies: seq<Company>, i: nat)
    requires i < |companies|
    ensures Cards(companies)[i].visitLink.Some? <==> CompanyCard.IsClickable(companies[i])
    ensures CompanyCard.Render(companies[i]).Linked? ==>
              Cards(companies)[i].visitLink == Some(CompanyCard.Render(companies[i]).anchor.href)
  {
  }
}
