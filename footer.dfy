/** The site footer: the tagline and copyright fallbacks, the quick and
    legal link lists with their defaults, the social links, and the
    navigation a footer link performs. */
module Footer {
  import opened Js
  import opened Optional
  import opened Effects
  import Lists
  import SettingsContext
  import ContactUsPage

  const NoTagline: string := "Footer tagline is not configured. Please add this from the admin dashboard."
  const NoCopyright: string := "Copyright text is not configured. Please add this from the admin dashboard."
  const NoSocialLinks: string := "No social links configured."

  /** `footer.tagline || branding.tagline`, or the notice when both are empty. */
  function Tagline(footer: SettingsContext.FooterSettings, branding: SettingsContext.Branding): (e: ContactUsPage.Entry)
    ensures Truthy(footer.tagline) ==> e == ContactUsPage.Shown(footer.tagline, None)
    ensures !Truthy(footer.tagline) && Truthy(branding.tagline) ==> e == ContactUsPage.Shown(branding.tagline, None)
    ensures !Truthy(footer.tagline) && !Truthy(branding.tagline) ==> e == ContactUsPage.Missing(NoTagline)
  {
    ContactUsPage.EntryOf(Or(footer.tagline, branding.tagline), None, NoTagline)
  }

  /** A footer link: its route and its caption. */
  datatype NavTarget = NavTarget(to: Json, caption: Json)

  function Target(to: string, caption: string): NavTarget
  {
    NavTarget(Str(to), Str(caption))
  }

  const DefaultQuickLinks: seq<NavTarget> := [
    Target("/subjects", "Subjects"), Target("/about", "About"), Target("/contact", "Contact"),
    Target("/pricing", "Pricing"), Target("/sample-content", "Sample Content")]

  const DefaultLegalLinks: seq<NavTarget> := [
    Target("/privacy-policy", "Privacy Policy"), Target("/refund-policy", "Refund Policy"),
    Target("/terms-of-service", "Terms of Service"), Target("/support", "Support")]

  /** The configured links, each read as `link.path` and `link.label`, or
      the defaults when none are configured. */
  function LinksOr(configured: seq<Json>, defaults: seq<NavTarget>): (r: seq<NavTarget>)
    ensures |configured| > 0 ==> |r| == |configured|
    ensures |configured| > 0 ==>
      forall i :: 0 <= i < |r| ==> r[i] == NavTarget(Prop(configured[i], "path"), Prop(configured[i], "label"))
    ensures |configured| == 0 ==> r == defaults
  {
    if |configured| > 0
    then seq(|configured|, i requires 0 <= i < |configured| =>
           NavTarget(Prop(configured[i], "path"), Prop(configured[i], "label")))
    else defaults
  }

  function QuickLinks(footer: SettingsContext.FooterSettings): (r: seq<NavTarget>)
    ensures |footer.quickLinks| == 0 ==> r == DefaultQuickLinks && |r| == 5
    ensures |footer.quickLinks| > 0 ==> |r| == |footer.quickLinks|
  {
    LinksOr(footer.quickLinks, DefaultQuickLinks)
  }

  function LegalLinks(footer: SettingsContext.FooterSettings): (r: seq<NavTarget>)
    ensures |footer.legalLinks| == 0 ==> r == DefaultLegalLinks && |r| == 4
    ensures |footer.legalLinks| > 0 ==> |r| == |footer.legalLinks|
  {
    LinksOr(footer.legalLinks, DefaultLegalLinks)
  }

  /** With no settings, both lists fall back to their defaults. */
  lemma DefaultsListAllRoutes()
    ensures QuickLinks(SettingsContext.DefaultSettings.footer) == DefaultQuickLinks
    ensures LegalLinks(SettingsContext.DefaultSettings.footer) == DefaultLegalLinks
  {
  }

  /** The social links shown and the notice when there are none. */
  datatype SocialRow = Links(links: seq<ContactUsPage.SocialLink>) | NoLinks(notice: string)

  function SocialRowOf(links: SettingsContext.SocialLinks): (r: SocialRow)
    requires ContactUsPage.SocialTextual(links)
    ensures r.NoLinks? <==> !Truthy(links.instagram) && !Truthy(links.facebook) && !Truthy(links.whatsapp)
    ensures r.Links? ==> r.links == ContactUsPage.SocialLinksOf(links) && r.links != []
  {
    ContactUsPage.NoSocialLinksIffNoneConfigured(links);
    if !Truthy(links.instagram) && !Truthy(links.facebook) && !Truthy(links.whatsapp)
    then NoLinks(NoSocialLinks)
    else Links(ContactUsPage.SocialLinksOf(links))
  }

  /** The copyright line: `©`, the year, and the holder as a JSX child, so
      the holder is kept as the value itself rather than printed. */
  datatype CopyrightLine = Line(year: int, holder: Json) | NoHolder(notice: string)

  /** `© <year> {copyrightText || platformName}`, or the notice when both are empty. */
  function Copyright(year: int, footer: SettingsContext.FooterSettings, branding: SettingsContext.Branding): (c: CopyrightLine)
    ensures c.Line? <==> Truthy(footer.copyrightText) || Truthy(branding.platformName)
    ensures c.Line? ==> c.year == year && Truthy(c.holder)
    ensures Truthy(footer.copyrightText) ==> c.holder == footer.copyrightText
    ensures !Truthy(footer.copyrightText) && Truthy(branding.platformName) ==> c.holder == branding.platformName
    ensures c.NoHolder? ==> c == NoHolder(NoCopyright)
  {
    var holder := Or(footer.copyrightText, branding.platformName);
    if Truthy(holder) then Line(year, holder) else NoHolder(NoCopyright)
  }

  /** The navigation a router `Link` makes when clicked at `current`
      (path, query and hash): it replaces the history entry when the
      target is the current location, and pushes a new one otherwise. */
  function LinkNavigation(current: string, to: Json): (e: Effect)
    ensures e.Navigate? && e.to == to && e.state == Undefined
    ensures e.replace <==> to == Str(current)
  {
    Navigate(to, Undefined, to == Str(current))
  }

  /** Following a link grows the history by one entry, except a link to the
      page already shown, which leaves its length as it was. Either way the
      link's target is the entry shown afterwards. */
  lemma LinkHistory(history: seq<Json>, current: string, to: Json)
    requires history != [] && history[|history| - 1] == Str(current)
    ensures var h := Effects.Visit(history, LinkNavigation(current, to));
      && h[|h| - 1] == to
      && (|h| == |history| <==> to == Str(current))
      && (to != Str(current) ==> h == history + [to])
  {
    var h := Effects.Visit(history, LinkNavigation(current, to));
    assert |h| == |h[..|h| - 1]| + 1;
  }

  /** Clicking the same footer link twice leaves the history as one click
      does: the second click is on the page the first one opened. */
  lemma RepeatedClickAddsNoEntry(history: seq<Json>, current: string, path: string)
    requires history != []
    ensures var once := Effects.Visit(history, LinkNavigation(current, Str(path)));
      Effects.Visit(once, LinkNavigation(path, Str(path))) == once
  {
    var once := Effects.Visit(history, LinkNavigation(current, Str(path)));
    var twice := Effects.Visit(once, LinkNavigation(path, Str(path)));
    assert twice == once[..|once| - 1] + [Str(path)];
    assert once == once[..|once| - 1] + [once[|once| - 1]];
  }

  const HeaderOffset: int := 96

  /** The scroll position that puts a section just below the fixed header,
      never above the top of the page. */
  function ScrollTarget(top: int, scrollY: int): (y: nat)
    ensures y >= top + scrollY - HeaderOffset
    ensures y == 0 || y == top + scrollY - HeaderOffset
  {
    var y := top + scrollY - HeaderOffset;
    if y >= 0 then y else 0
  }

  /** What a click on a footer link does, given the current path, the link
      object (`path`, `sectionId`, `fallbackTop`), the page position of the
      section's element (`None` when the page has no such element) and the
      window's scroll offset. */
  function NavClickEffects(pathname: string, link: Json, sectionTop: Option<int>, scrollY: int): (r: seq<Effect>)
    ensures |r| <= 1
    ensures forall i :: 0 <= i < |r| ==> (r[i].Navigate? && !r[i].replace) || (r[i].ScrollTo? && r[i].top >= 0)
  {
    if Str(pathname) != Prop(link, "path") then
      [Navigate(Prop(link, "path"),
                if Truthy(Prop(link, "sectionId")) then Obj(map["targetSection" := Prop(link, "sectionId")]) else Undefined,
                false)]
    else if Truthy(Prop(link, "sectionId")) && sectionTop.Some? then
      [ScrollTo(ScrollTarget(sectionTop.value, scrollY))]
    else if Truthy(Prop(link, "fallbackTop")) then
      [ScrollTo(0)]
    else []
  }

  /** Following a link to another page navigates there exactly once,
      carrying the section to scroll to exactly when the link names one,
      and does not scroll. */
  lemma OtherPageNavigates(pathname: string, link: Json, sectionTop: Option<int>, scrollY: int)
    requires Str(pathname) != Prop(link, "path")
    ensures var r := NavClickEffects(pathname, link, sectionTop, scrollY);
      && |r| == 1 && r[0].Navigate? && r[0].to == Prop(link, "path") && !r[0].replace
      && (r[0].state.Obj? <==> Truthy(Prop(link, "sectionId")))
      && (r[0].state.Obj? ==> Prop(r[0].state, "targetSection") == Prop(link, "sectionId"))
  {
  }

  /** On the link's own page there is never a navigation: at most one
      scroll, to the section when it exists, otherwise to the top exactly
      when the link asks for that fallback. */
  lemma SamePageScrolls(pathname: string, link: Json, sectionTop: Option<int>, scrollY: int)
    requires Str(pathname) == Prop(link, "path")
    ensures var r := NavClickEffects(pathname, link, sectionTop, scrollY);
      && |r| <= 1
      && (forall i :: 0 <= i < |r| ==> r[i].ScrollTo?)
      && (Truthy(Prop(link, "sectionId")) && sectionTop.Some? ==>
            r == [ScrollTo(ScrollTarget(sectionTop.value, scrollY))])
      && (!(Truthy(Prop(link, "sectionId")) && sectionTop.Some?) ==>
            (r == [ScrollTo(0)] <==> Truthy(Prop(link, "fallbackTop"))) && (r == [] <==> !Truthy(Prop(link, "fallbackTop"))))
  {
  }

  /** The footer's handlers, with the effects they perform recorded in order. */
  class FooterView {
    var log: seq<Effect>

    constructor ()
      ensures log == []
    {
      log := [];
    }

    /** Scrolls to the section when the page has it and reports whether it did. */
    method ScrollWithOffset(sectionTop: Option<int>, scrollY: int) returns (scrolled: bool)
      modifies this`log
      ensures scrolled <==> sectionTop.Some?
      ensures scrolled ==> log == old(log) + [ScrollTo(ScrollTarget(sectionTop.value, scrollY))]
      ensures !scrolled ==> log == old(log)
    {
      if sectionTop.Some? {
        var y := sectionTop.value + scrollY - HeaderOffset;
        log := log + [ScrollTo(if y >= 0 then y else 0)];
        return true;
      }
      return false;
    }

    /** A click on a quick or legal link while the browser is at `current`:
        its `onClick` scrolls the window to the top, then the router's `Link`
        follows the link. */
    method FollowLink(current: string, link: NavTarget)
      modifies this`log
      ensures log == old(log) + [ScrollTo(0), LinkNavigation(current, link.to)]
    {
      log := log + [ScrollTo(0)];
      log := log + [LinkNavigation(current, link.to)];
    }

    method HandleNavClick(pathname: string, link: Json, sectionTop: Option<int>, scrollY: int)
      modifies this`log
      ensures log == old(log) + NavClickEffects(pathname, link, sectionTop, scrollY)
    {
      if Str(pathname) == Prop(link, "path") {
        if Truthy(Prop(link, "sectionId")) {
          var scrolled := ScrollWithOffset(sectionTop, scrollY);
          if !scrolled && Truthy(Prop(link, "fallbackTop")) {
            log := log + [ScrollTo(0)];
          }
        } else if Truthy(Prop(link, "fallbackTop")) {
          log := log + [ScrollTo(0)];
        }
      } else {
        var state := if Truthy(Prop(link, "sectionId")) then Obj(map["targetSection" := Prop(link, "sectionId")]) else Undefined;
        log := log + [Navigate(Prop(link, "path"), state, false)];
      }
    }
  }
}
