/** The support page: a header shown only when a title or a description is
    configured, and the contact categories that have a title. */
module SupportPage {
  import opened Js
  import opened Optional
  import Lists
  import SettingsContext

  /** `c.title`: the category has a title to show. */
  predicate Titled(c: Json)
    ensures Titled(c) ==> c.Obj? && "title" in c.fields
  {
    Truthy(Prop(c, "title"))
  }

  /** The categories the page lists. */
  function ValidCategories(s: SettingsContext.Settings): (r: seq<Json>)
    ensures |r| <= |s.support.categories|
    ensures forall i :: 0 <= i < |r| ==> Titled(r[i]) && r[i] in s.support.categories
  {
    var r := Lists.Filter(s.support.categories, Titled);
    Lists.FilterMembers(s.support.categories, Titled);
    r
  }

  /** One listed category: its title, and its description when set. */
  datatype Row = Row(title: Json, description: Option<Json>)

  datatype Header = Header(title: Option<Json>, description: Option<Json>)

  /** What the page shows. `section` is whether the "CONTACT INFORMATION"
      section is rendered at all. */
  datatype View = View(header: Option<Header>, section: bool, rows: seq<Row>)

  function RowOf(c: Json): (r: Row)
    ensures r.title == Prop(c, "title")
    ensures r.description.Some? <==> Truthy(Prop(c, "description"))
    ensures r.description.Some? ==> r.description.value == Prop(c, "description")
  {
    Row(Prop(c, "title"), WhenTruthy(Prop(c, "description")))
  }

  function SupportView(s: SettingsContext.Settings): (v: View)
    ensures v.header.Some? <==> Truthy(s.support.title) || Truthy(s.support.description)
    ensures v.header.Some? ==>
      v.header.value == Header(WhenTruthy(s.support.title), WhenTruthy(s.support.description))
    ensures v.section <==> ValidCategories(s) != []
    ensures |v.rows| == |ValidCategories(s)|
    ensures forall i :: 0 <= i < |v.rows| ==> v.rows[i] == RowOf(ValidCategories(s)[i])
  {
    var valid := ValidCategories(s);
    var header := if Truthy(s.support.title) || Truthy(s.support.description)
                  then Some(Header(WhenTruthy(s.support.title), WhenTruthy(s.support.description)))
                  else None;
    View(header, |valid| > 0, seq(|valid|, i requires 0 <= i < |valid| => RowOf(valid[i])))
  }

  /** A shown header always shows something. */
  lemma HeaderNeverEmpty(s: SettingsContext.Settings)
    ensures var v := SupportView(s);
      v.header.Some? ==> v.header.value.title.Some? || v.header.value.description.Some?
  {
  }

  /** The listed categories are exactly the configured ones with a title,
      in their configured order. */
  lemma ValidCategoriesKeptInOrder(s: SettingsContext.Settings)
    ensures var cs := s.support.categories;
      var ix := Lists.KeptIndices(cs, Titled);
      && |ValidCategories(s)| == |ix|
      && Lists.StrictlyIncreasing(ix)
      && (forall k :: 0 <= k < |ix| ==> ix[k] < |cs| && ValidCategories(s)[k] == cs[ix[k]])
      && (forall j :: 0 <= j < |cs| && Titled(cs[j]) ==> j in ix)
  {
    Lists.FilterKeepsOrder(s.support.categories, Titled);
  }

  /** The section is rendered exactly when some configured category has a title. */
  lemma SectionIffSomeTitled(s: SettingsContext.Settings)
    ensures SupportView(s).section <==> exists i :: 0 <= i < |s.support.categories| && Titled(s.support.categories[i])
  {
    Lists.FilterEmpty(s.support.categories, Titled);
  }

  /** With the default settings the page shows neither header nor section. */
  lemma DefaultsShowNothing()
    ensures var v := SupportView(SettingsContext.DefaultSettings);
      v.header.None? && !v.section && v.rows == []
  {
  }
}
