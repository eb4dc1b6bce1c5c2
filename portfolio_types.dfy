/** The portfolio record shapes and the field constraints their documentation states
    (`src/types/portfolio.ts`). The constraints are documented only; nothing in the
    program checks them, so here they are a predicate that lemmas may assume. */
module PortfolioTypes {
  import opened Options

  /** One portfolio company, field for field. `websiteUrl` is `string | null`; `brandColor` is
      optional. `displayOrder` is a JavaScript number, here an integer. */
  datatype Company = Company(
    id: string,
    name: string,
    tagline: string,
    description: string,
    focusArea: string,
    websiteUrl: Option<string>,
    logoUrl: string,
    backgroundImage: string,
    comingSoon: bool,
    displayOrder: int,
    brandColor: Option<string>)

  /** The portfolio data document: schema version, last-update timestamp, companies. */
  datatype PortfolioData = PortfolioData(version: string, lastUpdated: string, companies: seq<Company>)

  const MaxTaglineLength: nat := 100
  const MaxDescriptionLength: nat := 200
  const HttpsScheme: string := "https://"

  /** An HTTPS URL: the `https://` scheme followed by something. */
  predicate IsHttpsUrl(u: string) {
    |u| > |HttpsScheme| && u[..|HttpsScheme|] == HttpsScheme
  }

  /** The documented logo path `/companies/<id>-logo.svg`. */
  function LogoPath(id: string): string {
    "/companies/" + id + "-logo.svg"
  }

  /** The documented background path `/companies/<id>-bg.avif`. */
  function BackgroundPath(id: string): string {
    "/companies/" + id + "-bg.avif"
  }

  /** The documented constraints on one company's fields. */
  predicate ValidCompany(c: Company) {
    && |c.tagline| <= MaxTaglineLength
    && |c.description| <= MaxDescriptionLength
    && (c.websiteUrl.None? || IsHttpsUrl(c.websiteUrl.value))
    && c.logoUrl == LogoPath(c.id)
    && c.backgroundImage == BackgroundPath(c.id)
  }

  /** Ids are documented as unique. */
  predicate UniqueIds(cs: seq<Company>) {
    forall i, j :: 0 <= i < j < |cs| ==> cs[i].id != cs[j].id
  }

  /** A portfolio document that meets every documented constraint. */
  predicate ValidPortfolio(d: PortfolioData) {
    && UniqueIds(d.companies)
    && forall c :: c in d.companies ==> ValidCompany(c)
  }

  /** A string placed between a fixed prefix and a fixed suffix can be read back. */
  lemma {:induction false} FramedInjective(pre: string, a: string, b: string, post: string)
    requires pre + a + post == pre + b + post
    ensures a == b
  {
    var x, y := pre + a + post, pre + b + post;
    assert |a| == |b|;
    assert a == x[|pre|..|pre| + |a|];
    assert b == y[|pre|..|pre| + |b|];
  }

  /** In a valid portfolio no two companies share a logo or a background image. */
  lemma ValidAssetPathsDistinct(d: PortfolioData, i: nat, j: nat)
    requires ValidPortfolio(d)
    requires i < j < |d.companies|
    ensures d.companies[i].logoUrl != d.companies[j].logoUrl
    ensures d.companies[i].backgroundImage != d.companies[j].backgroundImage
  {
    var a, b := d.companies[i], d.companies[j];
    assert ValidCompany(a) && ValidCompany(b);
    if a.logoUrl == b.logoUrl {
      FramedInjective("/companies/", a.id, b.id, "-logo.svg");
    }
    if a.backgroundImage == b.backgroundImage {
      FramedInjective("/companies/", a.id, b.id, "-bg.avif");
    }
  }
}
