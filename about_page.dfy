/** The about page: the configured sections, each shown or replaced by a
    notice, and the feature cards that keep every configured field and
    gain an icon. */
module AboutPage {
  import opened Js
  import opened Optional
  import Lists
  import SettingsContext
  import Icons
  import ContactUsPage

  const NoTitle: string := "About page title is not configured. Please add this content from the admin dashboard."
  const NoSubtitle: string := "About page subtitle is not configured. Please add this content from the admin dashboard."
  const NoWhoWeAre: string := "\"Who We Are\" content is not configured. Please add this content from the admin dashboard."
  const NoWhatWeOffer: string := "\"What We Offer\" content is not configured. Please add this content from the admin dashboard."
  const NoCommitment: string := "\"Our Commitment\" content is not configured. Please add this content from the admin dashboard."
  const NoPlatformName: string := "Platform name is not configured. Please add platform name from the admin dashboard."

  /** `{...card, IconComponent}`: the card's own fields and the icon its
      name selects (`IconComponent` replaces a field of that name). */
  datatype Card = Card(fields: map<string, Json>, icon: Icons.Icon)

  function Field(c: Card, key: string): Json
  {
    if key in c.fields then c.fields[key] else Undefined
  }

  function CardOf(icons: set<string>, card: Json): (r: Card)
    ensures r.icon == Icons.IconFor(icons, Prop(card, "icon"), Icons.BookOpen)
    ensures "IconComponent" !in r.fields
    ensures card.Obj? ==> forall k :: k != "IconComponent" ==> Field(r, k) == Prop(card, k)
  {
    Card(Spread(card) - {"IconComponent"}, Icons.IconFor(icons, Prop(card, "icon"), Icons.BookOpen))
  }

  /** `card.title || card.description`. */
  predicate HasContent(c: Card)
    ensures HasContent(c) ==> "title" in c.fields || "description" in c.fields
  {
    Truthy(Field(c, "title")) || Truthy(Field(c, "description"))
  }

  function AllCards(icons: set<string>, cards: seq<Json>): (r: seq<Card>)
    ensures |r| == |cards|
    ensures forall i :: 0 <= i < |cards| ==> r[i] == CardOf(icons, cards[i])
  {
    seq(|cards|, i requires 0 <= i < |cards| => CardOf(icons, cards[i]))
  }

  /** The cards the page shows: those with a title or a description. */
  function FeatureCards(icons: set<string>, s: SettingsContext.Settings): (r: seq<Card>)
    ensures |r| <= |s.about.featureCards|
    ensures forall i :: 0 <= i < |r| ==> HasContent(r[i])
  {
    Lists.Filter(AllCards(icons, s.about.featureCards), HasContent)
  }

  /** The shown cards are those of the configured cards with a title or a
      description, in order, each keeping all its fields. */
  lemma FeatureCardsKeptInOrder(icons: set<string>, s: SettingsContext.Settings)
    ensures var cs := s.about.featureCards;
      var ix := Lists.KeptIndices(AllCards(icons, cs), HasContent);
      && |FeatureCards(icons, s)| == |ix|
      && Lists.StrictlyIncreasing(ix)
      && (forall k :: 0 <= k < |ix| ==> ix[k] < |cs| && FeatureCards(icons, s)[k] == CardOf(icons, cs[ix[k]]))
      && (forall j :: 0 <= j < |cs| && HasContent(CardOf(icons, cs[j])) ==> j in ix)
  {
    Lists.FilterKeepsOrder(AllCards(icons, s.about.featureCards), HasContent);
  }

  /** For an object card, having content means its own title or description is set. */
  lemma ObjectCardContent(icons: set<string>, card: Json)
    requires card.Obj?
    ensures HasContent(CardOf(icons, card)) <==> Truthy(Prop(card, "title")) || Truthy(Prop(card, "description"))
  {
  }

  /** The "No feature cards available" notice appears exactly when no card has content. */
  lemma NoCardsIffNoneWithContent(icons: set<string>, s: SettingsContext.Settings)
    ensures FeatureCards(icons, s) == [] <==>
      forall i :: 0 <= i < |s.about.featureCards| ==> !HasContent(CardOf(icons, s.about.featureCards[i]))
  {
    var all := AllCards(icons, s.about.featureCards);
    Lists.FilterEmpty(all, HasContent);
    assert forall i :: 0 <= i < |all| ==> all[i] == CardOf(icons, s.about.featureCards[i]);
  }

  /** What the page shows for each configured section. */
  datatype View = View(title: ContactUsPage.Entry, subtitle: ContactUsPage.Entry,
                       whoWeAre: ContactUsPage.Entry, whatWeOffer: ContactUsPage.Entry,
                       commitment: ContactUsPage.Entry, cards: seq<Card>, noCardsNotice: bool,
                       callToAction: ContactUsPage.Entry)

  function AboutView(icons: set<string>, s: SettingsContext.Settings): (v: View)
    ensures v.title == ContactUsPage.EntryOf(s.about.title, None, NoTitle)
    ensures v.subtitle == ContactUsPage.EntryOf(s.about.subtitle, None, NoSubtitle)
    ensures v.whoWeAre == ContactUsPage.EntryOf(s.about.whoWeAre, None, NoWhoWeAre)
    ensures v.whatWeOffer == ContactUsPage.EntryOf(s.about.whatWeOffer, None, NoWhatWeOffer)
    ensures v.commitment == ContactUsPage.EntryOf(s.about.commitment, None, NoCommitment)
    ensures v.noCardsNotice <==> v.cards == []
    ensures v.callToAction == ContactUsPage.EntryOf(s.branding.platformName, None, NoPlatformName)
  {
    var cards := FeatureCards(icons, s);
    View(ContactUsPage.EntryOf(s.about.title, None, NoTitle),
         ContactUsPage.EntryOf(s.about.subtitle, None, NoSubtitle),
         ContactUsPage.EntryOf(s.about.whoWeAre, None, NoWhoWeAre),
         ContactUsPage.EntryOf(s.about.whatWeOffer, None, NoWhatWeOffer),
         ContactUsPage.EntryOf(s.about.commitment, None, NoCommitment),
         cards, |cards| == 0,
         ContactUsPage.EntryOf(s.branding.platformName, None, NoPlatformName))
  }

  /** With the default settings every section shows its notice and there are no cards. */
  lemma DefaultsShowNotices(icons: set<string>)
    ensures var v := AboutView(icons, SettingsContext.DefaultSettings);
      v.title.Missing? && v.subtitle.Missing? && v.whoWeAre.Missing?
      && v.whatWeOffer.Missing? && v.commitment.Missing? && v.noCardsNotice
      && v.callToAction == ContactUsPage.Missing(NoPlatformName)
  {
  }
}
