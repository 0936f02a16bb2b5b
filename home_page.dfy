/** The home page: the hero texts with their fallbacks, the feature cards
    built from the settings, and the section the page scrolls to when it
    is entered. */
module HomePage {
  import opened Js
  import opened Effects
  import Text
  import Lists
  import SettingsContext
  import Icons
  import Footer
  import opened Optional

  const DefaultHeroTitle: string := "Smarter Way\nto Learn"
  const DefaultHeroDescription: string :=
    "Learn faster with structured lessons, smart notes, and an AI-powered learning experience designed for modern students."
  const DefaultCtaText: string := "Explore Platform"
  const DefaultHeroImage: string :=
    "https://images.unsplash.com/photo-1451187580459-43490279c0fa?auto=format&fit=crop&q=80&w=2000"
  const DefaultImageAlt: string := "Study Souq"
  const DefaultFeatureColor: string := "#06b5cc"

  // ---------------------------------------------------------------------
  // Hero
  // ---------------------------------------------------------------------

  /** What the hero section shows. */
  datatype HeroView = HeroView(title: Json, description: Json, ctaText: Json, image: Json, imageAlt: Json)

  /** Each hero text is the configured one, or its fixed fallback when empty. */
  function Hero(s: SettingsContext.Settings): (h: HeroView)
    ensures Truthy(s.homepage.hero.title) ==> h.title == s.homepage.hero.title
    ensures !Truthy(s.homepage.hero.title) ==> h.title == Str(DefaultHeroTitle)
    ensures Truthy(s.homepage.hero.description) ==> h.description == s.homepage.hero.description
    ensures !Truthy(s.homepage.hero.description) ==> h.description == Str(DefaultHeroDescription)
    ensures Truthy(s.homepage.hero.ctaText) ==> h.ctaText == s.homepage.hero.ctaText
    ensures !Truthy(s.homepage.hero.ctaText) ==> h.ctaText == Str(DefaultCtaText)
    ensures Truthy(s.homepage.hero.heroImage) ==> h.image == s.homepage.hero.heroImage
    ensures !Truthy(s.homepage.hero.heroImage) ==> h.image == Str(DefaultHeroImage)
    ensures Truthy(s.branding.platformName) ==> h.imageAlt == s.branding.platformName
    ensures !Truthy(s.branding.platformName) ==> h.imageAlt == Str(DefaultImageAlt)
  {
    var hero := s.homepage.hero;
    HeroView(Or(hero.title, Str(DefaultHeroTitle)), Or(hero.description, Str(DefaultHeroDescription)),
             Or(hero.ctaText, Str(DefaultCtaText)), Or(hero.heroImage, Str(DefaultHeroImage)),
             Or(s.branding.platformName, Str(DefaultImageAlt)))
  }

  /** The hero never shows an empty text, even with the default settings. */
  lemma HeroNeverEmpty(s: SettingsContext.Settings)
    ensures var h := Hero(s);
      Truthy(h.title) && Truthy(h.description) && Truthy(h.ctaText) && Truthy(h.image) && Truthy(h.imageAlt)
  {
    var h := Hero(s);
    assert DefaultHeroTitle != "" && DefaultCtaText != "" && DefaultImageAlt != "";
    assert DefaultHeroDescription != "" && DefaultHeroImage != "";
  }

  // ---------------------------------------------------------------------
  // Features
  // ---------------------------------------------------------------------

  /** A feature card: its icon and its texts with their defaults. */
  datatype Feature = Feature(icon: Icons.Icon, title: Json, description: Json, color: Json)

  /** The card built from one configured feature. */
  function FeatureOf(icons: set<string>, f: Json): (r: Feature)
    ensures r.icon == Icons.IconFor(icons, Prop(f, "icon"), Icons.FileText)
    ensures Truthy(Prop(f, "title")) ==> r.title == Prop(f, "title")
    ensures !Truthy(Prop(f, "title")) ==> r.title == Str("")
    ensures Truthy(Prop(f, "description")) ==> r.description == Prop(f, "description")
    ensures !Truthy(Prop(f, "description")) ==> r.description == Str("")
    ensures Truthy(Prop(f, "color")) ==> r.color == Prop(f, "color")
    ensures !Truthy(Prop(f, "color")) ==> r.color == Str(DefaultFeatureColor)
  {
    Feature(Icons.IconFor(icons, Prop(f, "icon"), Icons.FileText),
            Or(Prop(f, "title"), Str("")), Or(Prop(f, "description"), Str("")),
            Or(Prop(f, "color"), Str(DefaultFeatureColor)))
  }

  /** `f.title || f.description`: the card has something to show. */
  predicate HasContent(f: Feature)
    ensures f.title == Str("") && f.description == Str("") ==> !HasContent(f)
  {
    Truthy(f.title) || Truthy(f.description)
  }

  /** The configured feature has a title or a description. */
  predicate Configured(f: Json)
  {
    Truthy(Prop(f, "title")) || Truthy(Prop(f, "description"))
  }

  /** Every configured feature mapped to its card. */
  function Cards(icons: set<string>, features: seq<Json>): (r: seq<Feature>)
    ensures |r| == |features|
    ensures forall i :: 0 <= i < |features| ==> r[i] == FeatureOf(icons, features[i])
  {
    seq(|features|, i requires 0 <= i < |features| => FeatureOf(icons, features[i]))
  }

  /** The cards the page shows: those with a title or a description. */
  function Features(icons: set<string>, s: SettingsContext.Settings): (r: seq<Feature>)
    ensures |r| <= |s.homepage.features|
    ensures forall i :: 0 <= i < |r| ==> HasContent(r[i])
  {
    Lists.Filter(Cards(icons, s.homepage.features), HasContent)
  }

  /** The shown cards are the cards of exactly the configured features
      with a title or a description, in the configured order. */
  lemma FeaturesKeptInOrder(icons: set<string>, s: SettingsContext.Settings)
    ensures var fs := s.homepage.features;
      var ix := Lists.KeptIndices(Cards(icons, fs), HasContent);
      && |Features(icons, s)| == |ix|
      && Lists.StrictlyIncreasing(ix)
      && (forall k :: 0 <= k < |ix| ==> ix[k] < |fs| && Features(icons, s)[k] == FeatureOf(icons, fs[ix[k]]))
      && (forall j :: 0 <= j < |fs| && Configured(fs[j]) ==> j in ix)
  {
    var fs := s.homepage.features;
    var cards := Cards(icons, fs);
    Lists.FilterKeepsOrder(cards, HasContent);
    forall j | 0 <= j < |fs| && Configured(fs[j])
      ensures HasContent(cards[j])
    {
      OrTruthy(Prop(fs[j], "title"), Str(""));
    }
  }

  /** The "No features available" notice appears exactly when no
      configured feature has a title or a description. */
  lemma NoFeaturesIffNoneConfigured(icons: set<string>, s: SettingsContext.Settings)
    ensures Features(icons, s) == [] <==>
      forall i :: 0 <= i < |s.homepage.features| ==> !Configured(s.homepage.features[i])
  {
    var cards := Cards(icons, s.homepage.features);
    Lists.FilterEmpty(cards, HasContent);
    assert forall i :: 0 <= i < |cards| ==> (HasContent(cards[i]) <==> Configured(s.homepage.features[i]));
  }

  /** Settings loaded from API data without a `homepage.features` array show no feature. */
  lemma NoFeaturesWithoutArray(icons: set<string>, api: Json)
    requires !Prop(Prop(api, "homepage"), "features").Arr?
    ensures Features(icons, SettingsContext.Normalize(api)) == []
  {
  }

  // ---------------------------------------------------------------------
  // Scrolling on entry
  // ---------------------------------------------------------------------

  /** `location.hash ? location.hash.replace('#', '') : null`. */
  function HashSection(hash: string): (r: Json)
    ensures hash == "" ==> r == Null
    ensures hash != "" && hash[0] == '#' ==> r == Str(hash[1..])
  {
    if hash == "" then Null else Str(Text.RemoveFirst(hash, '#'))
  }

  /** `state?.targetSection || hashSection`: the id of the section to scroll to. */
  function SectionToScroll(target: Json, hash: string): (r: Json)
    ensures Truthy(target) ==> r == target
    ensures !Truthy(target) && hash != "" && hash[0] == '#' ==> r == Str(hash[1..])
    ensures !Truthy(target) && hash == "" ==> !Truthy(r)
  {
    Or(target, HashSection(hash))
  }

  /** The entry effect. When there is a section to scroll to, a section
      handed over in the navigation state is consumed at once by replacing
      the route with the same path; on the next animation frame the window
      scrolls to the section's element, 96 pixels above it and never above
      the top. `sectionTop` is that element's position in the viewport
      (`None` when the page has no element with that id) and `scrollY` the
      window's scroll offset then. */
  function EntryEffects(target: Json, hash: string, pathname: string,
                        sectionTop: Option<int>, scrollY: int): (r: seq<Effect>)
    ensures !Truthy(SectionToScroll(target, hash)) ==> r == []
    ensures Truthy(target) && sectionTop.None? ==> r == [Navigate(Str(pathname), Undefined, true)]
    ensures Truthy(target) && sectionTop.Some? ==>
      r == [Navigate(Str(pathname), Undefined, true), ScrollTo(Footer.ScrollTarget(sectionTop.value, scrollY))]
    ensures !Truthy(target) && Truthy(SectionToScroll(target, hash)) && sectionTop.Some? ==>
      r == [ScrollTo(Footer.ScrollTarget(sectionTop.value, scrollY))]
    ensures !Truthy(target) && sectionTop.None? ==> r == []
  {
    if !Truthy(SectionToScroll(target, hash)) then []
    else
      (if Truthy(target) then [Navigate(Str(pathname), Undefined, true)] else [])
      + (if sectionTop.Some? then [ScrollTo(Footer.ScrollTarget(sectionTop.value, scrollY))] else [])
  }

  /** Arriving with `#id` in the URL scrolls exactly as a footer link to
      that section on the same page does, and never changes the route. */
  lemma HashEntryScrollsLikeFooterLink(id: string, pathname: string, sectionTop: Option<int>, scrollY: int)
    requires id != ""
    ensures var link := Obj(map["path" := Str(pathname), "sectionId" := Str(id)]);
      EntryEffects(Undefined, "#" + id, pathname, sectionTop, scrollY)
        == Footer.NavClickEffects(pathname, link, sectionTop, scrollY)
  {
    assert ("#" + id)[1..] == id;
  }

  /** A footer link to a section of another page hands the section over in
      the navigation state; arriving with it, the page replaces its route
      (dropping the state) and scrolls to that section. */
  lemma FooterHandOffScrolls(from: string, link: Json, sectionTop: int, scrollY: int)
    requires Prop(link, "path").Str? && Str(from) != Prop(link, "path")
    requires Truthy(Prop(link, "sectionId"))
    ensures var nav := Footer.NavClickEffects(from, link, Some(sectionTop), scrollY)[0];
      EntryEffects(Prop(nav.state, "targetSection"), "", nav.to.s, Some(sectionTop), scrollY)
        == [Navigate(nav.to, Undefined, true), ScrollTo(Footer.ScrollTarget(sectionTop, scrollY))]
  {
  }

  /** A bare `#` names no section: nothing is scrolled to. */
  lemma BareHashScrollsNowhere(target: Json)
    requires !Truthy(target)
    ensures !Truthy(SectionToScroll(target, "#"))
  {
    assert "#"[1..] == "";
  }
}
