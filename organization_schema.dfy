/** The organisation's structured-data block (`src/components/seo/OrganizationSchema.tsx`): the
    schema object, its JSON serialisation, and the escaping of every `<` as a backslash
    followed by `u003c`, which keeps
    the serialised text from closing the surrounding `<script>` element. */
module OrganizationSchema {

  // ---------------------------------------------------------------------------------------
  // Escaping
  // ---------------------------------------------------------------------------------------

  /** The six characters that replace each `<`: a backslash, then `u003c`. */
  const EscapedLt: string := "\\u003c"

  /** The global replacement of `<` applied to the serialised schema: every `<` becomes the
      six characters of `EscapedLt`, every other character is copied, in order. */
  function EscapeLt(s: string): (r: string)
    ensures '<' !in r
    ensures |r| == |s| + 5 * multiset(s)['<']
  {
    if s == [] then []
    else
      assert s == [s[0]] + s[1..];
      (if s[0] == '<' then EscapedLt else [s[0]]) + EscapeLt(s[1..])
  }

  /** Escaping works character by character, so it distributes over concatenation. */
  lemma {:induction false} EscapeLtAppend(a: string, b: string)
    ensures EscapeLt(a + b) == EscapeLt(a) + EscapeLt(b)
  {
    if a == [] {
      assert a + b == b;
    } else {
      assert (a + b)[0] == a[0];
      assert (a + b)[1..] == a[1..] + b;
      EscapeLtAppend(a[1..], b);
    }
  }

  /** Text without `<` is left as it is. */
  lemma {:induction false} EscapeLtIdentity(s: string)
    requires '<' !in s
    ensures EscapeLt(s) == s
  {
    if s != [] {
      assert s[1..] == s[1..] && forall k :: 0 <= k < |s[1..]| ==> s[1..][k] == s[k + 1];
      assert '<' !in s[1..];
      EscapeLtIdentity(s[1..]);
    }
  }

  /** Escaping an escaped text changes nothing. */
  lemma EscapeLtIdempotent(s: string)
    ensures EscapeLt(EscapeLt(s)) == EscapeLt(s)
  {
    EscapeLtIdentity(EscapeLt(s));
  }

  /** One character: a `<` becomes the six characters of `EscapedLt`, any other character is
      copied. With `EscapeLtAppend` this determines `EscapeLt` on every text. */
  lemma EscapeLtChar(c: char)
    ensures EscapeLt([c]) == if c == '<' then EscapedLt else [c]
  {
  }

  /** The replacement is the JSON escape `\u` followed by the four hex digits of `<`'s code
      point (U+003C), which a JSON parser reads back as `<`. */
  lemma EscapedLtIsUnicodeEscape()
    ensures '<' as int == 0x3C
    ensures EscapedLt == "\\u00" + [HexDigit(('<' as int) / 16), HexDigit(('<' as int) % 16)]
  {
  }

  // ---------------------------------------------------------------------------------------
  // Serialisation
  // ---------------------------------------------------------------------------------------

  /** The JSON values the schema is built from. */
  datatype Json =
    | JString(s: string)
    | JArray(items: seq<Json>)
    | JObject(members: seq<Member>)

  /** One property of an object, in insertion order. */
  datatype Member = Member(key: string, value: Json)

  function HexDigit(n: nat): (c: char)
    requires n < 16
    ensures c != '<'
  {
    "0123456789abcdef"[n]
  }

  /** How `JSON.stringify` writes one character inside a string literal (the QuoteJSONString
      operation of section 25.5.2.3 of ECMA-262): quote and backslash are escaped, the five
      common control characters get their short escapes, other control characters a `\u00XX`
      escape, and everything else is copied. */
  function QuoteChar(c: char): (r: string)
    ensures c != '<' ==> '<' !in r
    ensures c == '<' ==> r == "<"
  {
    if c == '"' then "\\\""
    else if c == '\\' then "\\\\"
    else if c == '\U{8}' then "\\b"
    else if c == '\U{C}' then "\\f"
    else if c == '\n' then "\\n"
    else if c == '\r' then "\\r"
    else if c == '\t' then "\\t"
    else if (c as int) < 0x20 then "\\u00" + [HexDigit((c as int) / 16), HexDigit((c as int) % 16)]
    else [c]
  }

  /** A string literal: the characters quoted one by one between double quotes. */
  function QuoteString(s: string): (r: string)
    ensures '<' in r <==> '<' in s
  {
    "\"" + QuoteChars(s) + "\""
  }

  function QuoteChars(s: string): (r: string)
    ensures '<' in r <==> '<' in s
  {
    if s == [] then []
    else
      assert s == [s[0]] + s[1..];
      QuoteChar(s[0]) + QuoteChars(s[1..])
  }

  /** The parts separated by commas. */
  function JoinCommas(parts: seq<string>): (r: string)
    ensures ('<' in r) <==> exists i :: 0 <= i < |parts| && '<' in parts[i]
  {
    if parts == [] then []
    else if |parts| == 1 then parts[0]
    else
      var rest := JoinCommas(parts[1..]);
      assert forall i :: 1 <= i < |parts| ==> parts[i] == parts[1..][i - 1];
      parts[0] + "," + rest
  }

  /** `JSON.stringify` without indentation: arrays and objects keep their order, and object
      keys are written as string literals. */
  function Stringify(j: Json): string {
    match j
    case JString(s) => QuoteString(s)
    case JArray(items) =>
      "[" + JoinCommas(seq(|items|, i requires 0 <= i < |items| => Stringify(items[i]))) + "]"
    case JObject(members) =>
      "{" + JoinCommas(seq(|members|, i requires 0 <= i < |members| =>
                              QuoteString(members[i].key) + ":" + Stringify(members[i].value))) + "}"
  }

  /** No string in the value, key or element, holds a `<`. */
  predicate LtFree(j: Json) {
    match j
    case JString(s) => '<' !in s
    case JArray(items) => forall i :: 0 <= i < |items| ==> LtFree(items[i])
    case JObject(members) =>
      forall i :: 0 <= i < |members| ==> '<' !in members[i].key && LtFree(members[i].value)
  }

  /** A `<` in the serialised text can only come from a string of the value. */
  lemma {:induction false} StringifyLtFree(j: Json)
    requires LtFree(j)
    ensures '<' !in Stringify(j)
  {
    match j
    case JString(s) =>
    case JArray(items) =>
      forall i | 0 <= i < |items| ensures '<' !in Stringify(items[i]) {
        StringifyLtFree(items[i]);
      }
    case JObject(members) =>
      forall i | 0 <= i < |members| ensures '<' !in Stringify(members[i].value) {
        StringifyLtFree(members[i].value);
      }
  }

  // ---------------------------------------------------------------------------------------
  // The schema
  // ---------------------------------------------------------------------------------------

  function PostalAddress(locality: string, country: string): Json {
    JObject([Member("@type", JString("PostalAddress")),
             Member("addressLocality", JString(locality)),
             Member("addressCountry", JString(country))])
  }

  /** The organisation's description, written in four pieces to keep proofs about its
      characters small. */
  const DescriptionStart: string := "LAB64 is a visionary group company "
  const DescriptionField: string := "pioneering artificial intelligence, "
  const DescriptionScope: string := "agentic systems, and drone "
  const DescriptionEnd: string := "communications technology."
  const SchemaDescription: string := DescriptionStart + DescriptionField + DescriptionScope + DescriptionEnd

  // Proof scaffolding: one small lemma per named string, each stating that it holds no `<`;
  // the lemmas about the schema's members combine them.
  lemma DescriptionStartLtFree() ensures '<' !in DescriptionStart {}
  lemma DescriptionFieldLtFree() ensures '<' !in DescriptionField {}
  lemma DescriptionScopeLtFree() ensures '<' !in DescriptionScope {}
  lemma DescriptionEndLtFree() ensures '<' !in DescriptionEnd {}

  lemma SchemaDescriptionLtFree()
    ensures '<' !in SchemaDescription
  {
    DescriptionStartLtFree();
    DescriptionFieldLtFree();
    DescriptionScopeLtFree();
    DescriptionEndLtFree();
  }

  // The schema's longer strings, each named so that its freedom from `<` is a small proof.
  const SchemaContext: string := "https://schema.org"
  const SiteUrl: string := "https://lab64.ai"
  const LogoUrl: string := "https://lab64.ai/lab64-logo.svg"
  const LinkedInUrl: string := "https://linkedin.com/company/lab64"
  const TwitterUrl: string := "https://twitter.com/lab64"
  const GitHubUrl: string := "https://github.com/lab64"
  const ContactType: string := "customer service"
  const ContactEmail: string := "contact@lab64.ai"

  lemma SchemaContextLtFree() ensures '<' !in SchemaContext {}
  lemma SiteUrlLtFree() ensures '<' !in SiteUrl {}
  lemma LogoUrlLtFree() ensures '<' !in LogoUrl {}
  lemma LinkedInUrlLtFree() ensures '<' !in LinkedInUrl {}
  lemma TwitterUrlLtFree() ensures '<' !in TwitterUrl {}
  lemma GitHubUrlLtFree() ensures '<' !in GitHubUrl {}
  lemma ContactTypeLtFree() ensures '<' !in ContactType {}
  lemma ContactEmailLtFree() ensures '<' !in ContactEmail {}

  const AreaServed: Json := JArray([JString("Czech Republic"), JString("India"), JString("France"), JString("Germany")])

  const Addresses: Json := JArray([PostalAddress("Prague", "CZ"), PostalAddress("Hyderabad", "IN"),
                                   PostalAddress("Paris", "FR"), PostalAddress("Berlin", "DE")])

  const SameAs: Json := JArray([JString(LinkedInUrl), JString(TwitterUrl), JString(GitHubUrl)])

  const ContactPoint: Json := JObject([Member("@type", JString("ContactPoint")),
                                       Member("contactType", JString(ContactType)),
                                       Member("email", JString(ContactEmail))])

  /** The schema's properties, in the order they are written. */
  const SchemaMembers: seq<Member> := [
    Member("@context", JString(SchemaContext)),
    Member("@type", JString("Organization")),
    Member("name", JString("LAB64")),
    Member("url", JString(SiteUrl)),
    Member("logo", JString(LogoUrl)),
    Member("description", JString(SchemaDescription)),
    Member("areaServed", AreaServed),
    Member("address", Addresses),
    Member("sameAs", SameAs),
    Member("contactPoint", ContactPoint)
  ]

  const Schema: Json := JObject(SchemaMembers)

  predicate MemberLtFree(m: Member) {
    '<' !in m.key && LtFree(m.value)
  }

  /** A postal address is free of `<` when its locality and country are. */
  lemma PostalAddressLtFree(locality: string, country: string)
    requires '<' !in locality && '<' !in country
    ensures LtFree(PostalAddress(locality, country))
  {
    var ms := PostalAddress(locality, country).members;
    assert '<' !in "@type" && '<' !in "PostalAddress";
    assert '<' !in "addressLocality" && '<' !in "addressCountry";
    assert MemberLtFree(ms[0]) && MemberLtFree(ms[1]) && MemberLtFree(ms[2]);
  }

  lemma AreaServedLtFree()
    ensures LtFree(AreaServed)
  {
    assert '<' !in "Czech Republic" && '<' !in "India";
    assert '<' !in "France" && '<' !in "Germany";
    assert forall i :: 0 <= i < |AreaServed.items| ==> LtFree(AreaServed.items[i]);
  }

  lemma SameAsLtFree()
    ensures LtFree(SameAs)
  {
    LinkedInUrlLtFree();
    TwitterUrlLtFree();
    GitHubUrlLtFree();
  }

  lemma ContactPointLtFree()
    ensures LtFree(ContactPoint)
  {
    ContactTypeLtFree();
    ContactEmailLtFree();
    var ms := ContactPoint.members;
    assert MemberLtFree(ms[0]) && MemberLtFree(ms[1]) && MemberLtFree(ms[2]);
  }

  lemma AddressesLtFree()
    ensures LtFree(Addresses)
  {
    PostalAddressLtFree("Prague", "CZ");
    PostalAddressLtFree("Hyderabad", "IN");
    PostalAddressLtFree("Paris", "FR");
    PostalAddressLtFree("Berlin", "DE");
  }

  lemma LeadingMembersLtFree()
    ensures forall i :: 0 <= i < 5 ==> MemberLtFree(SchemaMembers[i])
  {
    SchemaContextLtFree();
    SiteUrlLtFree();
    LogoUrlLtFree();
    assert '<' !in "@context" && '<' !in "@type" && '<' !in "Organization";
    assert '<' !in "name" && '<' !in "LAB64" && '<' !in "url" && '<' !in "logo";
    assert MemberLtFree(SchemaMembers[0]) && MemberLtFree(SchemaMembers[1]);
    assert MemberLtFree(SchemaMembers[2]) && MemberLtFree(SchemaMembers[3]);
    assert MemberLtFree(SchemaMembers[4]);
  }

  lemma TrailingMembersLtFree()
    ensures forall i :: 5 <= i < |SchemaMembers| ==> MemberLtFree(SchemaMembers[i])
  {
    SchemaDescriptionLtFree();
    AreaServedLtFree();
    AddressesLtFree();
    SameAsLtFree();
    ContactPointLtFree();
    assert MemberLtFree(SchemaMembers[5]) && MemberLtFree(SchemaMembers[6]);
    assert MemberLtFree(SchemaMembers[7]) && MemberLtFree(SchemaMembers[8]);
    assert MemberLtFree(SchemaMembers[9]);
  }

  /** No key or string of the schema holds a `<`. */
  lemma SchemaLtFree()
    ensures LtFree(Schema)
  {
    LeadingMembersLtFree();
    TrailingMembersLtFree();
    assert forall i :: 0 <= i < |SchemaMembers| ==> MemberLtFree(SchemaMembers[i]);
  }

  /** The text placed in the script element. */
  function SchemaHtml(): (r: string)
    ensures '<' !in r
  {
    EscapeLt(Stringify(Schema))
  }

  /** The schema's strings hold no `<`, so escaping leaves its serialisation unchanged. */
  lemma SchemaEscapingIsIdentity()
    ensures SchemaHtml() == Stringify(Schema)
  {
    SchemaLtFree();
    StringifyLtFree(Schema);
    EscapeLtIdentity(Stringify(Schema));
  }
}
