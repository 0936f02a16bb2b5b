/** The site-wide settings provider: the empty defaults, the normaliser that
    turns the `/settings` response into a fully populated settings record,
    the fetch with its bounded retry on network failures, the unused
    `deepMerge` helper and the `useSettings` fallback outside a provider. */
module SettingsContext {
  import opened Js
  import opened Optional
  import Text
  import Effects
  import Lists

  // ---------------------------------------------------------------------
  // The settings record
  // ---------------------------------------------------------------------

  // Text leaves are kept as JavaScript values: `x || ''` passes any truthy
  // value through unchanged, whatever its type. List leaves are the
  // elements of the API array.

  datatype Branding = Branding(platformName: Json, logo: Json, favicon: Json, tagline: Json, currency: Json)
  datatype BusinessHours = BusinessHours(weekdays: Json, weekends: Json)
  datatype SocialLinks = SocialLinks(instagram: Json, facebook: Json, whatsapp: Json)
  datatype Contact = Contact(supportEmail: Json, phone: Json, address: Json,
                             businessHours: BusinessHours, socialLinks: SocialLinks)
  datatype Hero = Hero(title: Json, description: Json, ctaText: Json, heroImage: Json)
  datatype Cta = Cta(title: Json, description: Json)
  datatype Homepage = Homepage(hero: Hero, features: seq<Json>, cta: Cta)
  datatype About = About(title: Json, subtitle: Json, whoWeAre: Json, whatWeOffer: Json,
                         commitment: Json, featureCards: seq<Json>)
  datatype FooterSettings = FooterSettings(tagline: Json, quickLinks: seq<Json>, legalLinks: seq<Json>,
                                           copyrightText: Json)
  datatype Navbar = Navbar(links: seq<Json>)
  datatype Policy = Policy(content: Json, lastUpdated: Json)
  datatype Policies = Policies(privacyPolicy: Policy, termsOfService: Policy, refundPolicy: Policy)
  datatype Support = Support(title: Json, description: Json, responseTime: Json, categories: seq<Json>)
  datatype PricingPageSettings = PricingPageSettings(title: Json, description: Json,
                                                     freePlanFeatures: seq<Json>, trustStats: seq<Json>,
                                                     faqs: seq<Json>)
  datatype SampleContent = SampleContent(title: Json, description: Json, samples: seq<Json>)
  datatype Settings = Settings(
    branding: Branding, contact: Contact, homepage: Homepage, about: About,
    footer: FooterSettings, navbar: Navbar, policies: Policies, support: Support,
    pricingPage: PricingPageSettings, sampleContent: SampleContent)

  /** The text leaves of each section, by name. */
  datatype BrandingKey = PlatformName | Logo | Favicon | BrandTagline | Currency
  datatype ContactKey = SupportEmail | Phone | Address | Weekdays | Weekends | Instagram | Facebook | Whatsapp
  datatype HomepageKey = HeroTitle | HeroDescription | HeroCtaText | HeroImage | CtaTitle | CtaDescription
  datatype AboutKey = AboutTitle | AboutSubtitle | WhoWeAre | WhatWeOffer | Commitment
  datatype FooterKey = FooterTagline | CopyrightText
  datatype PolicyKey = PrivacyContent | PrivacyUpdated | TermsContent | TermsUpdated | RefundContent | RefundUpdated
  datatype SupportKey = SupportTitle | SupportDescription | ResponseTime
  datatype PricingKey = PricingTitle | PricingDescription
  datatype SampleKey = SampleTitle | SampleDescription

  /** The names of the text leaves of the settings record: a section and a leaf in it. */
  datatype TextField =
    | BrandingText(branding: BrandingKey)
    | ContactText(contact: ContactKey)
    | HomepageText(homepage: HomepageKey)
    | AboutText(about: AboutKey)
    | FooterText(footer: FooterKey)
    | PolicyText(policy: PolicyKey)
    | SupportText(support: SupportKey)
    | PricingText(pricing: PricingKey)
    | SampleText(sample: SampleKey)

  /** The names of the list leaves of the settings record. */
  datatype ListField =
    | Features | FeatureCards | QuickLinks | LegalLinks | NavLinks | Categories
    | FreePlanFeatures | TrustStats | Faqs | Samples

  /** `api.section?.key` (and one level deeper for nested groups): where the
      normaliser reads each text leaf in the API data. */
  function TextSource(api: Json, f: TextField): Json
  {
    match f
    case BrandingText(k) =>
      var b := Prop(api, "branding");
      (match k
       case PlatformName => Prop(b, "platformName")
       case Logo => Prop(b, "logo")
       case Favicon => Prop(b, "favicon")
       case BrandTagline => Prop(b, "tagline")
       case Currency => Prop(b, "currency"))
    case ContactText(k) =>
      var c := Prop(api, "contact");
      (match k
       case SupportEmail => Prop(c, "supportEmail")
       case Phone => Prop(c, "phone")
       case Address => Prop(c, "address")
       case Weekdays => Prop(Prop(c, "businessHours"), "weekdays")
       case Weekends => Prop(Prop(c, "businessHours"), "weekends")
       case Instagram => Prop(Prop(c, "socialLinks"), "instagram")
       case Facebook => Prop(Prop(c, "socialLinks"), "facebook")
       case Whatsapp => Prop(Prop(c, "socialLinks"), "whatsapp"))
    case HomepageText(k) =>
      var h := Prop(api, "homepage");
      (match k
       case HeroTitle => Prop(Prop(h, "hero"), "title")
       case HeroDescription => Prop(Prop(h, "hero"), "description")
       case HeroCtaText => Prop(Prop(h, "hero"), "ctaText")
       case HeroImage => Prop(Prop(h, "hero"), "heroImage")
       case CtaTitle => Prop(Prop(h, "cta"), "title")
       case CtaDescription => Prop(Prop(h, "cta"), "description"))
    case AboutText(k) =>
      var a := Prop(api, "about");
      (match k
       case AboutTitle => Prop(a, "title")
       case AboutSubtitle => Prop(a, "subtitle")
       case WhoWeAre => Prop(a, "whoWeAre")
       case WhatWeOffer => Prop(a, "whatWeOffer")
       case Commitment => Prop(a, "commitment"))
    case FooterText(k) =>
      var ft := Prop(api, "footer");
      (match k
       case FooterTagline => Prop(ft, "tagline")
       case CopyrightText => Prop(ft, "copyrightText"))
    case PolicyText(k) =>
      var p := Prop(api, "policies");
      (match k
       case PrivacyContent => Prop(Prop(p, "privacyPolicy"), "content")
       case PrivacyUpdated => Prop(Prop(p, "privacyPolicy"), "lastUpdated")
       case TermsContent => Prop(Prop(p, "termsOfService"), "content")
       case TermsUpdated => Prop(Prop(p, "termsOfService"), "lastUpdated")
       case RefundContent => Prop(Prop(p, "refundPolicy"), "content")
       case RefundUpdated => Prop(Prop(p, "refundPolicy"), "lastUpdated"))
    case SupportText(k) =>
      var sp := Prop(api, "support");
      (match k
       case SupportTitle => Prop(sp, "title")
       case SupportDescription => Prop(sp, "description")
       case ResponseTime => Prop(sp, "responseTime"))
    case PricingText(k) =>
      var pp := Prop(api, "pricingPage");
      (match k
       case PricingTitle => Prop(pp, "title")
       case PricingDescription => Prop(pp, "description"))
    case SampleText(k) =>
      var sc := Prop(api, "sampleContent");
      (match k
       case SampleTitle => Prop(sc, "title")
       case SampleDescription => Prop(sc, "description"))
  }

  /** `api.section?.key`: where the normaliser reads each list leaf. */
  function ListSource(api: Json, f: ListField): Json
  {
    match f
    case Features => Prop(Prop(api, "homepage"), "features")
    case FeatureCards => Prop(Prop(api, "about"), "featureCards")
    case QuickLinks => Prop(Prop(api, "footer"), "quickLinks")
    case LegalLinks => Prop(Prop(api, "footer"), "legalLinks")
    case NavLinks => Prop(Prop(api, "navbar"), "links")
    case Categories => Prop(Prop(api, "support"), "categories")
    case FreePlanFeatures => Prop(Prop(api, "pricingPage"), "freePlanFeatures")
    case TrustStats => Prop(Prop(api, "pricingPage"), "trustStats")
    case Faqs => Prop(Prop(api, "pricingPage"), "faqs")
    case Samples => Prop(Prop(api, "sampleContent"), "samples")
  }

  /** The fallback of each text leaf: `'EGP'` for the currency, `''` otherwise. */
  function Fallback(f: TextField): string
  {
    if f == BrandingText(Currency) then "EGP" else ""
  }

  /** Reading a text leaf of a settings record. */
  function TextOf(s: Settings, f: TextField): Json
  {
    match f
    case BrandingText(k) =>
      (match k
       case PlatformName => s.branding.platformName
       case Logo => s.branding.logo
       case Favicon => s.branding.favicon
       case BrandTagline => s.branding.tagline
       case Currency => s.branding.currency)
    case ContactText(k) =>
      (match k
       case SupportEmail => s.contact.supportEmail
       case Phone => s.contact.phone
       case Address => s.contact.address
       case Weekdays => s.contact.businessHours.weekdays
       case Weekends => s.contact.businessHours.weekends
       case Instagram => s.contact.socialLinks.instagram
       case Facebook => s.contact.socialLinks.facebook
       case Whatsapp => s.contact.socialLinks.whatsapp)
    case HomepageText(k) =>
      (match k
       case HeroTitle => s.homepage.hero.title
       case HeroDescription => s.homepage.hero.description
       case HeroCtaText => s.homepage.hero.ctaText
       case HeroImage => s.homepage.hero.heroImage
       case CtaTitle => s.homepage.cta.title
       case CtaDescription => s.homepage.cta.description)
    case AboutText(k) =>
      (match k
       case AboutTitle => s.about.title
       case AboutSubtitle => s.about.subtitle
       case WhoWeAre => s.about.whoWeAre
       case WhatWeOffer => s.about.whatWeOffer
       case Commitment => s.about.commitment)
    case FooterText(k) =>
      (match k
       case FooterTagline => s.footer.tagline
       case CopyrightText => s.footer.copyrightText)
    case PolicyText(k) =>
      (match k
       case PrivacyContent => s.policies.privacyPolicy.content
       case PrivacyUpdated => s.policies.privacyPolicy.lastUpdated
       case TermsContent => s.policies.termsOfService.content
       case TermsUpdated => s.policies.termsOfService.lastUpdated
       case RefundContent => s.policies.refundPolicy.content
       case RefundUpdated => s.policies.refundPolicy.lastUpdated)
    case SupportText(k) =>
      (match k
       case SupportTitle => s.support.title
       case SupportDescription => s.support.description
       case ResponseTime => s.support.responseTime)
    case PricingText(k) =>
      (match k
       case PricingTitle => s.pricingPage.title
       case PricingDescription => s.pricingPage.description)
    case SampleText(k) =>
      (match k
       case SampleTitle => s.sampleContent.title
       case SampleDescription => s.sampleContent.description)
  }

  /** Reading a list leaf of a settings record. */
  function ListOf(s: Settings, f: ListField): seq<Json>
  {
    match f
    case Features => s.homepage.features
    case FeatureCards => s.about.featureCards
    case QuickLinks => s.footer.quickLinks
    case LegalLinks => s.footer.legalLinks
    case NavLinks => s.navbar.links
    case Categories => s.support.categories
    case FreePlanFeatures => s.pricingPage.freePlanFeatures
    case TrustStats => s.pricingPage.trustStats
    case Faqs => s.pricingPage.faqs
    case Samples => s.sampleContent.samples
  }

  // ---------------------------------------------------------------------
  // Defaults and normalisation
  // ---------------------------------------------------------------------

  const Empty: Json := Str("")

  /** The settings used before the first load and after every failed one. */
  const DefaultSettings: Settings := Settings(
    Branding(Empty, Empty, Empty, Empty, Str("EGP")),
    Contact(Empty, Empty, Empty, BusinessHours(Empty, Empty), SocialLinks(Empty, Empty, Empty)),
    Homepage(Hero(Empty, Empty, Empty, Empty), [], Cta(Empty, Empty)),
    About(Empty, Empty, Empty, Empty, Empty, []),
    FooterSettings(Empty, [], [], Empty),
    Navbar([]),
    Policies(Policy(Empty, Empty), Policy(Empty, Empty), Policy(Empty, Empty)),
    Support(Empty, Empty, Empty, []),
    PricingPageSettings(Empty, Empty, [], [], []),
    SampleContent(Empty, Empty, []))

  /** `Array.isArray(v) ? v : []` */
  function ArrayOrEmpty(v: Json): (r: seq<Json>)
    ensures v.Arr? ==> r == v.elems
    ensures !v.Arr? ==> r == []
  {
    if v.Arr? then v.elems else []
  }

  /** The settings record built from the `data` object of a successful
      response: each text leaf is `api.section?.key || ''` (`|| 'EGP'` for
      the currency), each list leaf the API array or `[]`. */
  function Normalize(api: Json): (r: Settings)
    ensures Truthy(r.branding.currency)
  {
    Settings(NormalizeBranding(api), NormalizeContact(api), NormalizeHomepage(api),
             NormalizeAbout(api), NormalizeFooter(api),
             Navbar(ArrayOrEmpty(Prop(Prop(api, "navbar"), "links"))),
             NormalizePolicies(api), NormalizeSupport(api), NormalizePricingPage(api),
             NormalizeSampleContent(api))
  }

  function NormalizeBranding(api: Json): Branding
  {
    var b := Prop(api, "branding");
    Branding(Or(Prop(b, "platformName"), Empty), Or(Prop(b, "logo"), Empty),
             Or(Prop(b, "favicon"), Empty), Or(Prop(b, "tagline"), Empty),
             Or(Prop(b, "currency"), Str("EGP")))
  }

  function NormalizeContact(api: Json): Contact
  {
    var c := Prop(api, "contact");
    var hours := Prop(c, "businessHours");
    var social := Prop(c, "socialLinks");
    Contact(Or(Prop(c, "supportEmail"), Empty), Or(Prop(c, "phone"), Empty), Or(Prop(c, "address"), Empty),
            BusinessHours(Or(Prop(hours, "weekdays"), Empty), Or(Prop(hours, "weekends"), Empty)),
            SocialLinks(Or(Prop(social, "instagram"), Empty), Or(Prop(social, "facebook"), Empty),
                        Or(Prop(social, "whatsapp"), Empty)))
  }

  function NormalizeHomepage(api: Json): Homepage
  {
    var h := Prop(api, "homepage");
    var hero := Prop(h, "hero");
    var cta := Prop(h, "cta");
    Homepage(Hero(Or(Prop(hero, "title"), Empty), Or(Prop(hero, "description"), Empty),
                  Or(Prop(hero, "ctaText"), Empty), Or(Prop(hero, "heroImage"), Empty)),
             ArrayOrEmpty(Prop(h, "features")),
             Cta(Or(Prop(cta, "title"), Empty), Or(Prop(cta, "description"), Empty)))
  }

  function NormalizeAbout(api: Json): About
  {
    var a := Prop(api, "about");
    About(Or(Prop(a, "title"), Empty), Or(Prop(a, "subtitle"), Empty), Or(Prop(a, "whoWeAre"), Empty),
          Or(Prop(a, "whatWeOffer"), Empty), Or(Prop(a, "commitment"), Empty),
          ArrayOrEmpty(Prop(a, "featureCards")))
  }

  function NormalizeFooter(api: Json): FooterSettings
  {
    var f := Prop(api, "footer");
    FooterSettings(Or(Prop(f, "tagline"), Empty), ArrayOrEmpty(Prop(f, "quickLinks")),
                   ArrayOrEmpty(Prop(f, "legalLinks")), Or(Prop(f, "copyrightText"), Empty))
  }

  function NormalizePolicy(p: Json): Policy
  {
    Policy(Or(Prop(p, "content"), Empty), Or(Prop(p, "lastUpdated"), Empty))
  }

  function NormalizePolicies(api: Json): Policies
  {
    var p := Prop(api, "policies");
    Policies(NormalizePolicy(Prop(p, "privacyPolicy")), NormalizePolicy(Prop(p, "termsOfService")),
             NormalizePolicy(Prop(p, "refundPolicy")))
  }

  function NormalizeSupport(api: Json): Support
  {
    var s := Prop(api, "support");
    Support(Or(Prop(s, "title"), Empty), Or(Prop(s, "description"), Empty),
            Or(Prop(s, "responseTime"), Empty), ArrayOrEmpty(Prop(s, "categories")))
  }

  function NormalizePricingPage(api: Json): PricingPageSettings
  {
    var p := Prop(api, "pricingPage");
    PricingPageSettings(Or(Prop(p, "title"), Empty), Or(Prop(p, "description"), Empty),
                        ArrayOrEmpty(Prop(p, "freePlanFeatures")), ArrayOrEmpty(Prop(p, "trustStats")),
                        ArrayOrEmpty(Prop(p, "faqs")))
  }

  function NormalizeSampleContent(api: Json): SampleContent
  {
    var s := Prop(api, "sampleContent");
    SampleContent(Or(Prop(s, "title"), Empty), Or(Prop(s, "description"), Empty),
                  ArrayOrEmpty(Prop(s, "samples")))
  }

  /** Every text leaf of the normalised record is the API value when that is
      truthy and the leaf's fallback otherwise; so no leaf is `undefined`
      or any other falsy value but the fallback. */
  lemma NormalizeTextLeaves(api: Json, f: TextField)
    ensures Truthy(TextSource(api, f)) ==> TextOf(Normalize(api), f) == TextSource(api, f)
    ensures !Truthy(TextSource(api, f)) ==> TextOf(Normalize(api), f) == Str(Fallback(f))
    ensures TextOf(Normalize(api), f) != Undefined
  {
    NormalizeReadsSource(api, f);
  }

  /** Each text leaf is `source || fallback`. */
  lemma NormalizeReadsSource(api: Json, f: TextField)
    ensures TextOf(Normalize(api), f) == Or(TextSource(api, f), Str(Fallback(f)))
  {
    var s := Normalize(api);
    match f
    case BrandingText(k) => BrandingReadsSource(s, api, k);
    case ContactText(k) => ContactReadsSource(s, api, k);
    case HomepageText(k) => HomepageReadsSource(s, api, k);
    case AboutText(k) => AboutReadsSource(s, api, k);
    case FooterText(k) => FooterReadsSource(s, api, k);
    case PolicyText(k) => PoliciesReadsSource(s, api, k);
    case SupportText(k) => SupportReadsSource(s, api, k);
    case PricingText(k) => PricingPageReadsSource(s, api, k);
    case SampleText(k) => SampleContentReadsSource(s, api, k);
  }

  /** The branding leaves of a record whose branding section is normalised from `api`. */
  lemma BrandingReadsSource(s: Settings, api: Json, k: BrandingKey)
    requires s.branding == NormalizeBranding(api)
    ensures TextOf(s, BrandingText(k)) == Or(TextSource(api, BrandingText(k)), Str(Fallback(BrandingText(k))))
  {
  }

  /** The contact leaves of a record whose contact section is normalised from `api`. */
  lemma ContactReadsSource(s: Settings, api: Json, k: ContactKey)
    requires s.contact == NormalizeContact(api)
    ensures TextOf(s, ContactText(k)) == Or(TextSource(api, ContactText(k)), Str(Fallback(ContactText(k))))
  {
  }

  /** The homepage leaves of a record whose homepage section is normalised from `api`. */
  lemma HomepageReadsSource(s: Settings, api: Json, k: HomepageKey)
    requires s.homepage == NormalizeHomepage(api)
    ensures TextOf(s, HomepageText(k)) == Or(TextSource(api, HomepageText(k)), Str(Fallback(HomepageText(k))))
  {
  }

  /** The about leaves of a record whose about section is normalised from `api`. */
  lemma AboutReadsSource(s: Settings, api: Json, k: AboutKey)
    requires s.about == NormalizeAbout(api)
    ensures TextOf(s, AboutText(k)) == Or(TextSource(api, AboutText(k)), Str(Fallback(AboutText(k))))
  {
  }

  /** The footer leaves of a record whose footer section is normalised from `api`. */
  lemma FooterReadsSource(s: Settings, api: Json, k: FooterKey)
    requires s.footer == NormalizeFooter(api)
    ensures TextOf(s, FooterText(k)) == Or(TextSource(api, FooterText(k)), Str(Fallback(FooterText(k))))
  {
  }

  /** The policies leaves of a record whose policies section is normalised from `api`. */
  lemma PoliciesReadsSource(s: Settings, api: Json, k: PolicyKey)
    requires s.policies == NormalizePolicies(api)
    ensures TextOf(s, PolicyText(k)) == Or(TextSource(api, PolicyText(k)), Str(Fallback(PolicyText(k))))
  {
  }

  /** The support leaves of a record whose support section is normalised from `api`. */
  lemma SupportReadsSource(s: Settings, api: Json, k: SupportKey)
    requires s.support == NormalizeSupport(api)
    ensures TextOf(s, SupportText(k)) == Or(TextSource(api, SupportText(k)), Str(Fallback(SupportText(k))))
  {
  }

  /** The pricingPage leaves of a record whose pricingPage section is normalised from `api`. */
  lemma PricingPageReadsSource(s: Settings, api: Json, k: PricingKey)
    requires s.pricingPage == NormalizePricingPage(api)
    ensures TextOf(s, PricingText(k)) == Or(TextSource(api, PricingText(k)), Str(Fallback(PricingText(k))))
  {
  }

  /** The sampleContent leaves of a record whose sampleContent section is normalised from `api`. */
  lemma SampleContentReadsSource(s: Settings, api: Json, k: SampleKey)
    requires s.sampleContent == NormalizeSampleContent(api)
    ensures TextOf(s, SampleText(k)) == Or(TextSource(api, SampleText(k)), Str(Fallback(SampleText(k))))
  {
  }

  /** `branding.currency` is `'EGP'` whenever the API currency is missing or
      falsy, the empty string included. */
  lemma CurrencyFallback(api: Json)
    ensures !Truthy(Prop(Prop(api, "branding"), "currency")) ==> Normalize(api).branding.currency == Str("EGP")
    ensures Prop(Prop(api, "branding"), "currency") == Str("") ==> Normalize(api).branding.currency == Str("EGP")
  {
    NormalizeTextLeaves(api, BrandingText(Currency));
  }

  /** Every list leaf of the normalised record holds the API array's elements
      unchanged when the API value is an array (even an empty one), and is
      empty otherwise. */
  lemma NormalizeListLeaves(api: Json, f: ListField)
    ensures ListSource(api, f).Arr? ==> ListOf(Normalize(api), f) == ListSource(api, f).elems
    ensures !ListSource(api, f).Arr? ==> ListOf(Normalize(api), f) == []
  {
  }

  /** The defaults are exactly what the normaliser makes of an empty object. */
  lemma DefaultsNormalizeEmpty()
    ensures Normalize(Obj(map[])) == DefaultSettings
  {
    var empty := Obj(map[]);
    assert NormalizeBranding(empty) == DefaultSettings.branding;
    assert NormalizeContact(empty) == DefaultSettings.contact;
    assert NormalizeHomepage(empty) == DefaultSettings.homepage;
    assert NormalizeAbout(empty) == DefaultSettings.about;
    assert NormalizeFooter(empty) == DefaultSettings.footer;
    assert ArrayOrEmpty(Prop(Prop(empty, "navbar"), "links")) == [];
    assert NormalizePolicies(empty) == DefaultSettings.policies;
    assert NormalizeSupport(empty) == DefaultSettings.support;
    assert NormalizePricingPage(empty) == DefaultSettings.pricingPage;
    assert NormalizeSampleContent(empty) == DefaultSettings.sampleContent;
  }

  /** In the defaults every text leaf is its fallback: `''`, or `'EGP'` for the currency. */
  lemma DefaultTextLeaves(f: TextField)
    ensures TextOf(DefaultSettings, f) == Str(Fallback(f))
  {
  }

  /** In the defaults every list leaf is empty. */
  lemma DefaultListLeaves(f: ListField)
    ensures ListOf(DefaultSettings, f) == []
  {
  }

  /** Normalising the record's own leaves again changes nothing: a normalised
      leaf is already truthy or its fallback. */
  lemma NormalizeLeavesStable(api: Json, f: TextField)
    ensures Or(TextOf(Normalize(api), f), Str(Fallback(f))) == TextOf(Normalize(api), f)
  {
    NormalizeTextLeaves(api, f);
  }

  /** The settings a parsed response body yields: the normalised `data`
      when `success && data`, the defaults otherwise. */
  function SettingsFromBody(body: Json): (r: Settings)
    ensures !(Truthy(Prop(body, "success")) && Truthy(Prop(body, "data"))) ==> r == DefaultSettings
  {
    if Truthy(Prop(body, "success")) && Truthy(Prop(body, "data")) then Normalize(Prop(body, "data"))
    else DefaultSettings
  }

  // ---------------------------------------------------------------------
  // Fetching with bounded retry
  // ---------------------------------------------------------------------

  /** How many times a failed fetch is tried again. */
  const MaxRetries: nat := 2

  /** The body of an HTTP reply: JSON that parsed, or text that did not. */
  datatype Body = Parsed(data: Json) | Unparsable(message: string)

  /** What the network does with one `GET /settings`: the request is
      rejected (`TypeError` when the network fails, `AbortError` when the
      10 s abort fires), or a reply arrives. */
  datatype Response =
    | Rejected(name: ErrorName, message: string)
    | Reply(ok: bool, status: int, statusText: string, body: Body)

  /** The `name` of a thrown error: the built-in ones the fetch can raise, or any other. */
  datatype ErrorName = TypeError | AbortError | SyntaxError | Error | OtherError(name: string)

  /** A thrown error, by its `name` and `message`. */
  datatype Failure = Failure(name: ErrorName, message: string)

  /** How one attempt ends: a parsed, non-null response body whose settings
      are stored, or an error thrown into the catch block. */
  datatype AttemptResult = Loaded(body: Json) | Threw(failure: Failure)

  /** One pass through the `try` block. A non-ok status throws a plain
      `Error`, a body that is not JSON a `SyntaxError`, and a `null` body a
      `TypeError` when its `success` is read. */
  function Attempt(response: Response): (r: AttemptResult)
    ensures response.Reply? && !response.ok ==> r.Threw? && r.failure.name == Error
    ensures response.Rejected? ==> r == Threw(Failure(response.name, response.message))
    ensures response.Reply? && response.ok && response.body.Parsed? && !Nullish(response.body.data)
            ==> r == Loaded(response.body.data)
  {
    match response
    case Rejected(name, message) => Threw(Failure(name, message))
    case Reply(ok, status, statusText, body) =>
      if !ok then Threw(Failure(Error, "HTTP " + Text.IntToString(status) + ": " + statusText))
      else match body
        case Unparsable(message) => Threw(Failure(SyntaxError, message))
        case Parsed(data) =>
          if Nullish(data) then Threw(Failure(TypeError, ""))
          else Loaded(data)
  }

  /** Only network failures and timeouts are retried. */
  predicate Retryable(f: Failure)
    ensures Retryable(f) ==> f.name != Error && f.name != SyntaxError
  {
    f.name == TypeError || f.name == AbortError
  }

  /** Whether the attempt numbered `retryCount` is followed by another. */
  predicate RetriesAfter(retryCount: nat, server: nat -> Response)
    ensures RetriesAfter(retryCount, server) ==> RetriesLeft(retryCount + 1) < RetriesLeft(retryCount)
  {
    var r := Attempt(server(retryCount));
    r.Threw? && retryCount < MaxRetries && Retryable(r.failure)
  }

  /** Retries left after attempt `retryCount`. */
  function RetriesLeft(retryCount: nat): nat
  {
    if retryCount < MaxRetries then MaxRetries - retryCount else 0
  }

  /** The state `fetchSettings(retryCount)` leaves: the settings and error it stores. */
  datatype Outcome = Outcome(settings: Settings, error: Option<Failure>)

  /** What `fetchSettings(retryCount)` ends with when the `n`-th request is
      answered by `server(n)`. */
  function FinalOutcome(retryCount: nat, server: nat -> Response): (o: Outcome)
    decreases RetriesLeft(retryCount)
    ensures o.error.Some? ==> o.settings == DefaultSettings
    ensures o.error.Some? ==> Attempt(server(retryCount + FetchCount(retryCount, server) - 1)) == Threw(o.error.value)
  {
    if RetriesAfter(retryCount, server) then FinalOutcome(retryCount + 1, server)
    else match Attempt(server(retryCount))
      case Loaded(body) => Outcome(SettingsFromBody(body), None)
      case Threw(f) => Outcome(DefaultSettings, Some(f))
  }

  /** The requests and awaited backoffs `fetchSettings(retryCount)` performs, in order. */
  function FetchTrace(retryCount: nat, server: nat -> Response): (t: seq<Effects.Effect>)
    decreases RetriesLeft(retryCount)
    ensures |t| % 2 == 1
    ensures t[0] == Effects.Call(Effects.GetSettings) && t[|t| - 1] == Effects.Call(Effects.GetSettings)
  {
    [Effects.Call(Effects.GetSettings)]
    + if RetriesAfter(retryCount, server)
      then [Effects.Sleep(1000 * (retryCount + 1))] + FetchTrace(retryCount + 1, server)
      else []
  }

  /** The number of `GET /settings` requests of one `fetchSettings(retryCount)`. */
  function FetchCount(retryCount: nat, server: nat -> Response): (n: nat)
    decreases RetriesLeft(retryCount)
  {
    1 + if RetriesAfter(retryCount, server) then FetchCount(retryCount + 1, server) else 0
  }

  /** A fetch from the start makes at most `MaxRetries + 1` = 3 requests. */
  lemma {:induction false} FetchCountBound(retryCount: nat, server: nat -> Response)
    ensures FetchCount(retryCount, server) <= RetriesLeft(retryCount) + 1
    decreases RetriesLeft(retryCount)
  {
    if RetriesAfter(retryCount, server) {
      FetchCountBound(retryCount + 1, server);
    }
  }

  /** A fetch from the start makes at most three requests. */
  lemma AtMostThreeFetches(server: nat -> Response)
    ensures FetchCount(0, server) <= 3
  {
    FetchCountBound(0, server);
  }

  /** The trace holds exactly `FetchCount` requests. */
  lemma {:induction false} FetchTraceRequests(retryCount: nat, server: nat -> Response)
    ensures |Effects.Requests(FetchTrace(retryCount, server))| == FetchCount(retryCount, server)
    decreases RetriesLeft(retryCount)
  {
    var head := [Effects.Call(Effects.GetSettings)];
    if RetriesAfter(retryCount, server) {
      var rest := [Effects.Sleep(1000 * (retryCount + 1))] + FetchTrace(retryCount + 1, server);
      assert FetchTrace(retryCount, server) == head + rest;
      Effects.RequestsAppend(head, rest);
      Effects.RequestsAppend([Effects.Sleep(1000 * (retryCount + 1))], FetchTrace(retryCount + 1, server));
      FetchTraceRequests(retryCount + 1, server);
    } else {
      assert FetchTrace(retryCount, server) == head;
    }
  }

  /** From the start there are three possible schedules: one request; a
      failure, 1000 ms, a second request; or two failures with waits of
      1000 ms then 2000 ms (linear, not exponential) and a third request. */
  lemma RetrySchedule(server: nat -> Response)
    ensures var get := Effects.Call(Effects.GetSettings);
      FetchTrace(0, server) in [[get], [get, Effects.Sleep(1000), get],
                                [get, Effects.Sleep(1000), get, Effects.Sleep(2000), get]]
  {
    var get := Effects.Call(Effects.GetSettings);
    if RetriesAfter(0, server) {
      if RetriesAfter(1, server) {
        assert !RetriesAfter(2, server);
        assert FetchTrace(2, server) == [get];
        assert FetchTrace(1, server) == [get, Effects.Sleep(2000), get];
        assert FetchTrace(0, server) == [get, Effects.Sleep(1000), get, Effects.Sleep(2000), get];
      } else {
        assert FetchTrace(1, server) == [get];
        assert FetchTrace(0, server) == [get, Effects.Sleep(1000), get];
      }
    } else {
      assert FetchTrace(0, server) == [get];
    }
  }

  /** A request is retried exactly when it threw a network error or timeout
      and fewer than two retries were made; a non-ok status in particular
      is never retried. */
  lemma NotRetriedOnHttpError(retryCount: nat, server: nat -> Response)
    requires server(retryCount).Reply? && !server(retryCount).ok
    ensures FetchCount(retryCount, server) == 1
    ensures FinalOutcome(retryCount, server).error.Some?
    ensures FinalOutcome(retryCount, server).error.value.name == Error
    ensures FinalOutcome(retryCount, server).settings == DefaultSettings
  {
  }

  /** After a final failure the error is recorded and the settings are the
      defaults, not the last ones loaded; without an error they came from a
      response. */
  lemma {:induction false} FailureResetsToDefaults(retryCount: nat, server: nat -> Response)
    ensures FinalOutcome(retryCount, server).error.Some? ==>
      FinalOutcome(retryCount, server).settings == DefaultSettings
      && !(Retryable(FinalOutcome(retryCount, server).error.value)
           && retryCount + FetchCount(retryCount, server) <= MaxRetries)
    ensures FinalOutcome(retryCount, server).error.None? ==>
      exists n :: retryCount <= n < retryCount + FetchCount(retryCount, server)
        && Attempt(server(n)).Loaded?
        && SettingsFromBody(Attempt(server(n)).body) == FinalOutcome(retryCount, server).settings
    decreases RetriesLeft(retryCount)
  {
    if RetriesAfter(retryCount, server) {
      FailureResetsToDefaults(retryCount + 1, server);
    } else {
      assert Attempt(server(retryCount)).Loaded? ==>
        SettingsFromBody(Attempt(server(retryCount)).body) == FinalOutcome(retryCount, server).settings;
    }
  }

  /** The provider's state. */
  class SettingsProvider {
    var settings: Settings
    var loading: bool
    var error: Option<Failure>
    /** Requests and awaited delays, in the order they happen. */
    var log: seq<Effects.Effect>

    /** Before the first fetch: the defaults, loading, no error. */
    constructor()
      ensures settings == DefaultSettings && loading && error == None && log == []
    {
      settings := DefaultSettings;
      loading := true;
      error := None;
      log := [];
    }

    /** `fetchSettings(retryCount)`, the `n`-th request answered by `server(n)`. */
    method FetchSettings(retryCount: nat, server: nat -> Response)
      modifies this
      ensures settings == FinalOutcome(retryCount, server).settings
      ensures error == FinalOutcome(retryCount, server).error
      ensures !loading
      ensures log == old(log) + FetchTrace(retryCount, server)
      decreases RetriesLeft(retryCount)
    {
      loading := true;
      error := None;
      log := log + [Effects.Call(Effects.GetSettings)];
      var get := Effects.Call(Effects.GetSettings);
      var result := Attempt(server(retryCount));
      match result {
        case Loaded(body) =>
          settings := SettingsFromBody(body);
          assert FinalOutcome(retryCount, server) == Outcome(settings, None);
          assert FetchTrace(retryCount, server) == [get];
        case Threw(f) =>
          if retryCount < MaxRetries && Retryable(f) {
            var wait := Effects.Sleep(1000 * (retryCount + 1));
            log := log + [wait];
            FetchSettings(retryCount + 1, server);
            assert FinalOutcome(retryCount, server) == FinalOutcome(retryCount + 1, server);
            assert FetchTrace(retryCount, server) == [get] + ([wait] + FetchTrace(retryCount + 1, server));
            Lists.AppendAssociative(old(log) + [get], [wait], FetchTrace(retryCount + 1, server));
            Lists.AppendAssociative(old(log), [get], [wait] + FetchTrace(retryCount + 1, server));
          } else {
            error := Some(f);
            settings := DefaultSettings;
            assert FinalOutcome(retryCount, server) == Outcome(settings, error);
            assert FetchTrace(retryCount, server) == [get];
          }
      }
      loading := false;
    }
  }

  // ---------------------------------------------------------------------
  // deepMerge
  // ---------------------------------------------------------------------

  /** `typeof v === 'object'`: `null`, arrays and objects. */
  predicate IsObjectType(v: Json)
  {
    v.Null? || v.Arr? || v.Obj?
  }

  /** `isObject`: a truthy non-array object (dates do not occur in JSON). */
  predicate IsObject(v: Json)
  {
    v.Obj?
  }

  /** The value `deepMerge` stores under a key the source has. */
  function MergedValue(target: Json, key: string, sourceValue: Json): (r: Json)
    decreases sourceValue, 1
    ensures !IsObject(sourceValue) ==> r == sourceValue
    ensures IsObject(sourceValue) ==> r.Obj? && sourceValue.fields.Keys <= r.fields.Keys
  {
    if sourceValue.Arr? then sourceValue
    else if IsObject(sourceValue) then
      if key !in Spread(target) || !IsObject(Prop(target, key)) then Obj(Spread(sourceValue))
      else DeepMerge(Prop(target, key), sourceValue)
    else sourceValue
  }

  /** `deepMerge(target, source)`: a copy of `target` with the source's
      fields laid over it, objects merged recursively. */
  function DeepMerge(target: Json, source: Json): (r: Json)
    decreases source, 0
    ensures !Truthy(source) || !IsObjectType(source) ==> r == target
    ensures source.Arr? || (source.Obj? && !target.Obj?) ==> r == Obj(Spread(target))
    ensures source.Obj? && target.Obj? ==> r.Obj? && r.fields.Keys == target.fields.Keys + source.fields.Keys
  {
    if !Truthy(source) || !IsObjectType(source) then target
    else if !(IsObject(target) && IsObject(source)) then Obj(Spread(target))
    else
      Obj(map k | k in target.fields.Keys + source.fields.Keys ::
        if k in source.fields then MergedValue(target, k, source.fields[k]) else target.fields[k])
  }

  /** Per key, for two objects: an array or primitive source value
      (including `''` and `null`) overrides; an object source value is
      merged into an object target value and copied over anything else;
      keys the source lacks keep the target's value. */
  lemma DeepMergeFields(target: Json, source: Json, k: string)
    requires target.Obj? && source.Obj?
    ensures var r := DeepMerge(target, source);
      && (k in source.fields && !source.fields[k].Obj? ==> r.fields[k] == source.fields[k])
      && (k in source.fields && source.fields[k].Obj? && k in target.fields && target.fields[k].Obj?
          ==> r.fields[k] == DeepMerge(target.fields[k], source.fields[k]))
      && (k in source.fields && source.fields[k].Obj? && !(k in target.fields && target.fields[k].Obj?)
          ==> r.fields[k] == source.fields[k])
      && (k in target.fields && k !in source.fields ==> r.fields[k] == target.fields[k])
  {
  }

  /** Merging an object into itself gives it back. */
  lemma {:induction false} DeepMergeSelf(x: Json)
    requires x.Obj?
    ensures DeepMerge(x, x) == x
    decreases x
  {
    var r := DeepMerge(x, x);
    forall k | k in x.fields
      ensures r.fields[k] == x.fields[k]
    {
      DeepMergeFields(x, x, k);
      if x.fields[k].Obj? {
        DeepMergeSelf(x.fields[k]);
      }
    }
  }

  /** Merging an object into an empty object copies it. */
  lemma DeepMergeIntoEmpty(source: Json)
    requires source.Obj?
    ensures DeepMerge(Obj(map[]), source) == source
  {
    var r := DeepMerge(Obj(map[]), source);
    forall k | k in source.fields
      ensures r.fields[k] == source.fields[k]
    {
      DeepMergeFields(Obj(map[]), source, k);
    }
  }

  // ---------------------------------------------------------------------
  // useSettings
  // ---------------------------------------------------------------------

  /** The value the provider shares (its `refetch` is `FetchSettings`). */
  datatype ContextValue = ContextValue(settings: Settings, loading: bool, error: Option<Failure>)

  /** `useSettings()`: the provider's value, or outside any provider the
      defaults, not loading and without error. */
  function UseSettings(context: Option<ContextValue>): (r: ContextValue)
    ensures context.None? ==> r == ContextValue(DefaultSettings, false, None)
    ensures context.Some? ==> r == context.value
  {
    match context
    case None => ContextValue(DefaultSettings, false, None)
    case Some(value) => value
  }
}
