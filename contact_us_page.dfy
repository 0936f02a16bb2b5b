/** The contact page: which contact details are shown or replaced by a
    notice, and how the social, telephone and e-mail links are built. The
    footer builds its social links with the same functions. */
module ContactUsPage {
  import opened Js
  import opened Optional
  import Text
  import Lists
  import SettingsContext

  const InstagramBase: string := "https://instagram.com/"
  const FacebookBase: string := "https://facebook.com/"
  const WhatsappBase: string := "https://wa.me/"

  /** An Instagram link: a full URL is kept, a handle is appended to the
      site address with its first `@` removed. */
  function InstagramHref(handle: string): (href: string)
    ensures Text.StartsWith(handle, "http") ==> href == handle
    ensures !Text.StartsWith(handle, "http") ==> href == InstagramBase + Text.RemoveFirst(handle, '@')
  {
    if Text.StartsWith(handle, "http") then handle else InstagramBase + Text.RemoveFirst(handle, '@')
  }

  /** A Facebook link: a full URL is kept, a page name is appended to the site address. */
  function FacebookHref(page: string): (href: string)
    ensures Text.StartsWith(page, "http") ==> href == page
    ensures !Text.StartsWith(page, "http") ==> href == FacebookBase + page
  {
    if Text.StartsWith(page, "http") then page else FacebookBase + page
  }

  /** A WhatsApp link: a full URL is kept, otherwise only the digits of the
      number follow the click-to-chat address. */
  function WhatsappHref(number: string): (href: string)
    ensures Text.StartsWith(number, "http") ==> href == number
    ensures !Text.StartsWith(number, "http") ==> href == WhatsappBase + Text.DigitsOnly(number)
  {
    if Text.StartsWith(number, "http") then number else WhatsappBase + Text.DigitsOnly(number)
  }

  lemma PrefixStartsWith(base: string, rest: string)
    requires Text.StartsWith(base, "http")
    ensures Text.StartsWith(base + rest, "http")
  {
    assert (base + rest)[..4] == base[..4];
  }

  /** Every built link is a full URL, so building again changes nothing. */
  lemma HrefsIdempotent(s: string)
    ensures InstagramHref(InstagramHref(s)) == InstagramHref(s)
    ensures FacebookHref(FacebookHref(s)) == FacebookHref(s)
    ensures WhatsappHref(WhatsappHref(s)) == WhatsappHref(s)
  {
    assert Text.StartsWith(InstagramBase, "http") && Text.StartsWith(FacebookBase, "http");
    assert Text.StartsWith(WhatsappBase, "http");
    PrefixStartsWith(InstagramBase, Text.RemoveFirst(s, '@'));
    PrefixStartsWith(FacebookBase, s);
    PrefixStartsWith(WhatsappBase, Text.DigitsOnly(s));
  }

  /** A handle written with or without its leading `@` links to the same profile. */
  lemma InstagramAtOptional(handle: string)
    requires '@' !in handle && !Text.StartsWith(handle, "http")
    ensures InstagramHref("@" + handle) == InstagramHref(handle)
  {
    var at := "@" + handle;
    assert !Text.StartsWith(at, "http") by {
      if |at| >= 4 {
        assert at[0] == '@';
      }
    }
    assert Text.FirstIndex(at, '@') == 0;
    assert at[1..] == handle;
  }

  /** Whatever is typed, the chat link dials digits only, keeping every
      digit of the number. */
  lemma WhatsappDialsDigits(number: string)
    requires !Text.StartsWith(number, "http")
    ensures var href := WhatsappHref(number);
      && href[..|WhatsappBase|] == WhatsappBase
      && (forall i :: |WhatsappBase| <= i < |href| ==> Text.IsDigit(href[i]))
      && var dialled := href[|WhatsappBase|..];
         var ix := Lists.KeptIndices(number, Text.IsDigit);
         && |dialled| == |ix| && Lists.StrictlyIncreasing(ix)
         && (forall k :: 0 <= k < |ix| ==> ix[k] < |number| && dialled[k] == number[ix[k]])
         && (forall j :: 0 <= j < |number| && Text.IsDigit(number[j]) ==> j in ix)
  {
    var href := WhatsappHref(number);
    assert href[|WhatsappBase|..] == Text.DigitsOnly(number);
  }

  /** `tel:` followed by the phone number with its whitespace removed. */
  function PhoneHref(phone: string): (href: string)
    ensures |href| >= 4 && href[..4] == "tel:"
    ensures forall i :: 4 <= i < |href| ==> !Text.IsSpace(href[i])
    ensures var dialled := href[4..];
      var ix := Lists.KeptIndices(phone, Text.NotSpace);
      && |dialled| == |ix| && Lists.StrictlyIncreasing(ix)
      && (forall k :: 0 <= k < |ix| ==> ix[k] < |phone| && dialled[k] == phone[ix[k]])
      && (forall j :: 0 <= j < |phone| && !Text.IsSpace(phone[j]) ==> j in ix)
  {
    var digits := Text.RemoveSpaces(phone);
    assert ("tel:" + digits)[4..] == digits;
    "tel:" + digits
  }

  /** `mailto:` followed by the address as a template string prints it. */
  function MailHref(email: Json): (href: string)
    ensures email.Str? ==> href == "mailto:" + email.s
  {
    "mailto:" + JsString(email)
  }

  /** A detail as the page shows it: the configured value (with its link,
      if any), or the notice that it is not configured. */
  datatype Entry = Shown(text: Json, href: Option<string>) | Missing(notice: string)

  function EntryOf(v: Json, href: Option<string>, notice: string): (e: Entry)
    ensures Truthy(v) ==> e == Shown(v, href)
    ensures !Truthy(v) ==> e == Missing(notice)
  {
    if Truthy(v) then Shown(v, href) else Missing(notice)
  }

  /** A configured social network and its link. */
  datatype SocialLink = SocialLink(network: string, href: string)

  /** The social links configuration is usable when every configured
      value is a string. */
  predicate SocialTextual(links: SettingsContext.SocialLinks)
  {
    Textual(links.instagram) && Textual(links.facebook) && Textual(links.whatsapp)
  }

  /** The position of a network on the page: Instagram, then Facebook, then WhatsApp. */
  function NetworkRank(network: string): nat
  {
    if network == "Instagram" then 0 else if network == "Facebook" then 1 else 2
  }

  /** `l` is the link of a network that is configured. */
  predicate ConfiguredLink(links: SettingsContext.SocialLinks, l: SocialLink)
    requires SocialTextual(links)
  {
    || (Truthy(links.instagram) && l == SocialLink("Instagram", InstagramHref(links.instagram.s)))
    || (Truthy(links.facebook) && l == SocialLink("Facebook", FacebookHref(links.facebook.s)))
    || (Truthy(links.whatsapp) && l == SocialLink("WhatsApp", WhatsappHref(links.whatsapp.s)))
  }

  /** The configured networks, in the page's order, each with its link. */
  function SocialLinksOf(links: SettingsContext.SocialLinks): (r: seq<SocialLink>)
    requires SocialTextual(links)
    ensures |r| <= 3
    ensures forall i :: 0 <= i < |r| ==> ConfiguredLink(links, r[i])
    ensures Truthy(links.instagram) ==> SocialLink("Instagram", InstagramHref(links.instagram.s)) in r
    ensures Truthy(links.facebook) ==> SocialLink("Facebook", FacebookHref(links.facebook.s)) in r
    ensures Truthy(links.whatsapp) ==> SocialLink("WhatsApp", WhatsappHref(links.whatsapp.s)) in r
    ensures forall i :: 0 <= i < |r| ==> r[i].network in {"Instagram", "Facebook", "WhatsApp"}
    ensures forall i, j :: 0 <= i < j < |r| ==> NetworkRank(r[i].network) < NetworkRank(r[j].network)
  {
    (if Truthy(links.instagram) then [SocialLink("Instagram", InstagramHref(links.instagram.s))] else [])
    + (if Truthy(links.facebook) then [SocialLink("Facebook", FacebookHref(links.facebook.s))] else [])
    + (if Truthy(links.whatsapp) then [SocialLink("WhatsApp", WhatsappHref(links.whatsapp.s))] else [])
  }

  /** No link is shown exactly when none of the three networks is configured. */
  lemma NoSocialLinksIffNoneConfigured(links: SettingsContext.SocialLinks)
    requires SocialTextual(links)
    ensures SocialLinksOf(links) == [] <==>
      !Truthy(links.instagram) && !Truthy(links.facebook) && !Truthy(links.whatsapp)
  {
  }

  const NoDescription: string := "Contact page description is not configured. Please add this content from the admin dashboard."
  const NoAddress: string := "Address is not configured."
  const NoEmail: string := "Email is not configured."
  const NoPhone: string := "Phone is not configured."
  const NoWeekdays: string := "Business hours (weekdays) are not configured."
  const NoWeekends: string := "Business hours (weekends) are not configured."

  /** What the page shows. */
  datatype View = View(description: Entry, address: Entry, email: Entry, phone: Entry,
                       weekdays: Entry, weekends: Entry, socials: seq<SocialLink>)

  /** The page for given settings: every detail is shown exactly when it is
      configured; the e-mail and phone carry their links, and the phone's
      displayed text is the configured one, spaces and all. */
  function ContactView(s: SettingsContext.Settings): (v: View)
    requires Textual(s.contact.phone) && SocialTextual(s.contact.socialLinks)
    ensures v.description.Shown? <==> Truthy(s.support.description)
    ensures v.address.Shown? <==> Truthy(s.contact.address)
    ensures v.email.Shown? <==> Truthy(s.contact.supportEmail)
    ensures v.email.Shown? ==> v.email.href == Some(MailHref(s.contact.supportEmail))
    ensures v.phone.Shown? <==> Truthy(s.contact.phone)
    ensures v.phone.Shown? ==> v.phone.text == s.contact.phone && v.phone.href == Some(PhoneHref(s.contact.phone.s))
    ensures v.weekdays.Shown? <==> Truthy(s.contact.businessHours.weekdays)
    ensures v.weekends.Shown? <==> Truthy(s.contact.businessHours.weekends)
    ensures v.socials == SocialLinksOf(s.contact.socialLinks)
  {
    var c := s.contact;
    View(EntryOf(s.support.description, None, NoDescription),
         EntryOf(c.address, None, NoAddress),
         EntryOf(c.supportEmail, Some(MailHref(c.supportEmail)), NoEmail),
         EntryOf(c.phone, if Truthy(c.phone) then Some(PhoneHref(c.phone.s)) else None, NoPhone),
         EntryOf(c.businessHours.weekdays, None, NoWeekdays),
         EntryOf(c.businessHours.weekends, None, NoWeekends),
         SocialLinksOf(c.socialLinks))
  }

  /** With nothing configured the page shows every notice and no link. */
  lemma DefaultsShowNotices()
    ensures var v := ContactView(SettingsContext.DefaultSettings);
      && v.address == Missing(NoAddress) && v.email == Missing(NoEmail) && v.phone == Missing(NoPhone)
      && v.socials == []
  {
  }
}
