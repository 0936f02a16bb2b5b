/** The document head the application keeps in step with the branding
    settings: the window title, and a single favicon link that replaces
    every icon link already present. */
module DocumentHead {
  import opened Js
  import Text
  import Lists
  import SettingsContext

  const NoPlatformTitle: string := "Platform" + " - Please configure platform name from admin dashboard"

  /** The title: `platformName - tagline`, or the platform name alone when
      the tagline is blank, or the notice when the platform name is blank
      (blank meaning empty or whitespace only, what `trim() === ''` tests). */
  function Title(platformName: Json, tagline: Json): (title: string)
    requires Textual(platformName) && Textual(tagline)
    ensures var p := TextOrEmpty(platformName); var t := TextOrEmpty(tagline);
      && (!Text.Blank(p) && !Text.Blank(t) ==> title == p + " - " + t)
      && (!Text.Blank(p) && Text.Blank(t) ==> title == p)
      && (Text.Blank(p) ==> title == NoPlatformTitle)
  {
    var p := TextOrEmpty(platformName);
    var t := TextOrEmpty(tagline);
    if !Text.Blank(p) then (if !Text.Blank(t) then p + " - " + t else p)
    else NoPlatformTitle
  }

  /** Whatever the settings hold, the window title is never blank. */
  lemma TitleNeverBlank(platformName: Json, tagline: Json)
    requires Textual(platformName) && Textual(tagline)
    ensures !Text.Blank(Title(platformName, tagline))
  {
    var p := TextOrEmpty(platformName);
    var t := TextOrEmpty(tagline);
    var title := Title(platformName, tagline);
    if !Text.Blank(p) {
      var k :| 0 <= k < |p| && !Text.IsSpace(p[k]);
      if !Text.Blank(t) {
        assert title == p + " - " + t;
        assert title[k] == p[k];
      } else {
        assert title[k] == p[k];
      }
    } else {
      assert title[0] == 'P';
    }
  }

  /** A link target: a URL, or the built-in placeholder image. */
  datatype Href = Url(url: string) | PlaceholderImage

  /** A `<link>` element of the head: its `rel`, `type` and `href`. */
  datatype HeadLink = HeadLink(rel: string, kind: string, href: Href)

  /** `link[rel*="icon"]`: the links a favicon update removes. In an HTML
      document the selector compares the `rel` value ASCII
      case-insensitively, so `rel="Shortcut Icon"` matches too. */
  predicate IsIconLink(l: HeadLink)
  {
    Text.Contains(Text.ToLower(l.rel), "icon")
  }

  /** A `rel` of `"Shortcut Icon"` or `"ICON"` is an icon link, and
      `"stylesheet"` is not. */
  lemma IconMatchIgnoresCase(kind: string, href: Href)
    ensures IsIconLink(HeadLink("Shortcut Icon", kind, href))
    ensures IsIconLink(HeadLink("ICON", kind, href))
    ensures !IsIconLink(HeadLink("stylesheet", kind, href))
  {
    var shortcut := Text.ToLower("Shortcut Icon");
    assert shortcut[9..13] == "icon";
    Text.ContainsAt(shortcut, "icon", 9);
    var upper := Text.ToLower("ICON");
    assert upper[0..4] == "icon";
    Text.ContainsAt(upper, "icon", 0);
    var sheet := Text.ToLower("stylesheet");
    assert sheet == "stylesheet";
    Text.ContainsAt(sheet, "icon", 0);
  }

  predicate KeptByUpdate(l: HeadLink)
  {
    !IsIconLink(l)
  }

  /** The placeholder image as the `href` attribute spells it: a
      URL-encoded grey picture icon. */
  const PlaceholderUri: string := "data:image/svg+xml,%3Csvg%20xmlns%3D%22http%3A%2F%2Fwww.w3.org%2F2000%2Fsvg%22%20viewBox%3D%220%200%2024%2024%22%20fill%3D%22%2394A3B8%22%3E%3Cpath%20d%3D%22M4%2016l4.586-4.586a2%202%200%20012.828%200L16%2016m-2-2l1.586-1.586a2%202%200%20012.828%200L20%2014m-6-6h.01M6%2020h12a2%202%200%20002-2V6a2%202%200%2000-2-2H6a2%202%200%2000-2%202v12a2%202%200%20002%202z%22%2F%3E%3C%2Fsvg%3E"

  /** The `href` attribute's text. */
  function HrefText(h: Href): (s: string)
    ensures h.Url? ==> s == h.url
    ensures h.PlaceholderImage? ==> s == PlaceholderUri
  {
    match h
    case Url(url) => url
    case PlaceholderImage => PlaceholderUri
  }

  /** The favicon link: the configured image as PNG when it is not blank,
      otherwise the SVG placeholder. */
  function IconLink(favicon: Json): (l: HeadLink)
    requires Textual(favicon)
    ensures IsIconLink(l)
    ensures !Text.Blank(TextOrEmpty(favicon)) ==> l == HeadLink("icon", "image/png", Url(favicon.s))
    ensures Text.Blank(TextOrEmpty(favicon)) ==> l == HeadLink("icon", "image/svg+xml", PlaceholderImage)
  {
    var url := TextOrEmpty(favicon);
    if !Text.Blank(url) then HeadLink("icon", "image/png", Url(url))
    else HeadLink("icon", "image/svg+xml", PlaceholderImage)
  }

  /** The head's links after an update: every icon link removed, the other
      links kept in order, and the new favicon link appended. */
  function UpdatedLinks(links: seq<HeadLink>, favicon: Json): (r: seq<HeadLink>)
    requires Textual(favicon)
    ensures 1 <= |r| <= |links| + 1 && r[|r| - 1] == IconLink(favicon)
    ensures forall i :: 0 <= i < |r| - 1 ==> !IsIconLink(r[i])
  {
    Lists.Filter(links, KeptByUpdate) + [IconLink(favicon)]
  }

  /** After an update the head holds exactly one icon link, the new one, in last place. */
  lemma ExactlyOneIcon(links: seq<HeadLink>, favicon: Json)
    requires Textual(favicon)
    ensures var r := UpdatedLinks(links, favicon);
      && Lists.Count(r, IsIconLink) == 1
      && r[|r| - 1] == IconLink(favicon)
  {
    var kept := Lists.Filter(links, KeptByUpdate);
    Lists.CountAppend(kept, [IconLink(favicon)], IsIconLink);
    Lists.CountZero(kept, IsIconLink);
    assert Lists.Count([IconLink(favicon)], IsIconLink) == 1 by {
      assert [IconLink(favicon)][1..] == [];
    }
  }

  /** An update leaves every link that is not an icon link in place. */
  lemma OtherLinksKept(links: seq<HeadLink>, favicon: Json, i: nat)
    requires Textual(favicon)
    requires i < |links| && !IsIconLink(links[i])
    ensures links[i] in UpdatedLinks(links, favicon)
  {
    Lists.FilterMembers(links, KeptByUpdate);
    assert KeptByUpdate(links[i]);
  }

  /** An update does not depend on the favicon links already present: updating twice is updating once. */
  lemma UpdateIdempotent(links: seq<HeadLink>, favicon: Json)
    requires Textual(favicon)
    ensures UpdatedLinks(UpdatedLinks(links, favicon), favicon) == UpdatedLinks(links, favicon)
  {
    var kept := Lists.Filter(links, KeptByUpdate);
    Lists.FilterAppend(kept, [IconLink(favicon)], KeptByUpdate);
    Lists.FilterAll(kept, KeptByUpdate);
    assert Lists.Filter([IconLink(favicon)], KeptByUpdate) == [] by {
      assert [IconLink(favicon)][1..] == [];
    }
  }

  /** Removes the icon links one by one, keeping the others in order. */
  method RemoveIconLinks(links: seq<HeadLink>) returns (kept: seq<HeadLink>)
    ensures kept == Lists.Filter(links, KeptByUpdate)
  {
    kept := [];
    var i := 0;
    while i < |links|
      invariant 0 <= i <= |links|
      invariant kept == Lists.Filter(links[..i], KeptByUpdate)
    {
      Lists.FilterAppend(links[..i], [links[i]], KeptByUpdate);
      assert links[..i + 1] == links[..i] + [links[i]];
      if KeptByUpdate(links[i]) {
        kept := kept + [links[i]];
      }
      i := i + 1;
    }
    assert links[..i] == links;
  }

  /** The document's head as the application changes it. */
  class Head {
    var title: string
    var links: seq<HeadLink>

    constructor (links: seq<HeadLink>)
      ensures this.title == "" && this.links == links
    {
      this.title := "";
      this.links := links;
    }

    /** Runs whenever the platform name, tagline or favicon setting changes. */
    method Update(branding: SettingsContext.Branding)
      requires Textual(branding.platformName) && Textual(branding.tagline) && Textual(branding.favicon)
      modifies this
      ensures title == Title(branding.platformName, branding.tagline)
      ensures links == UpdatedLinks(old(links), branding.favicon)
    {
      var kept := RemoveIconLinks(links);
      title := Title(branding.platformName, branding.tagline);
      links := kept + [IconLink(branding.favicon)];
    }
  }
}
