/** The admin settings page: the fetched settings with their colour
    defaults, the save handler, the password check, the policy editor with
    its label, and the support-category list editor. The settings object is
    edited by spread-copying, so each edit is a function from the old
    settings to the new ones, and the page's methods store its result. */
module AdminSettingsPage {
  import opened Js
  import opened Optional
  import Text
  import Lists
  import opened Effects

  /** The four brand colours a fetched settings object gets when it has none. */
  const DefaultColors: Json := Obj(map[
    "primary" := Str("#06b5cc"), "secondary" := Str("#11282b"),
    "accent" := Str("#0d454e"), "background" := Str("#111113")])

  // ---------------------------------------------------------------------
  // Fetching
  // ---------------------------------------------------------------------

  /** `if (!fetched.branding.colors) fetched.branding.colors = {...}` on the
      fetched settings: `None` when it throws (no `branding` to read, or a
      `branding` that cannot take a property). */
  function WithDefaultColors(fetched: Json): (r: Option<Json>)
    ensures var branding := Prop(fetched, "branding");
      r.None? <==> Nullish(branding) || (!Truthy(Prop(branding, "colors")) && !branding.Obj?)
    ensures Truthy(Prop(Prop(fetched, "branding"), "colors")) ==> r == Some(fetched)
    ensures var branding := Prop(fetched, "branding");
      branding.Obj? && !Truthy(Prop(branding, "colors")) ==>
        r.Some? && r.value.Obj?
        && Prop(Prop(r.value, "branding"), "colors") == DefaultColors
        && (forall k :: k != "branding" ==> Prop(r.value, k) == Prop(fetched, k))
        && (forall k :: k != "colors" ==> Prop(Prop(r.value, "branding"), k) == Prop(branding, k))
  {
    var branding := Prop(fetched, "branding");
    if Nullish(branding) then None
    else if Truthy(Prop(branding, "colors")) then Some(fetched)
    else if !branding.Obj? then None
    else Some(Obj(fetched.fields["branding" := Obj(branding.fields["colors" := DefaultColors])]))
  }

  /** Defaulting the colours twice is defaulting them once: the result
      already has colours. */
  lemma DefaultColorsIdempotent(fetched: Json)
    requires WithDefaultColors(fetched).Some?
    ensures WithDefaultColors(WithDefaultColors(fetched).value) == WithDefaultColors(fetched)
  {
    var branding := Prop(fetched, "branding");
    if !Truthy(Prop(branding, "colors")) {
      var r := WithDefaultColors(fetched).value;
      assert Prop(Prop(r, "branding"), "colors") == DefaultColors;
    }
  }

  // ---------------------------------------------------------------------
  // Policies
  // ---------------------------------------------------------------------

  /** `{...settings, policies: {...settings.policies, [policy]: {...settings.policies?.[policy], content}}}`. */
  function WithPolicyContent(settings: Json, policy: string, content: Json): (r: Json)
    ensures r.Obj?
    ensures Prop(Prop(Prop(r, "policies"), policy), "content") == content
    ensures settings.Obj? ==> forall k :: k != "policies" ==> Prop(r, k) == Prop(settings, k)
    ensures var policies := Prop(settings, "policies");
      policies.Obj? ==> forall k :: k != policy ==> Prop(Prop(r, "policies"), k) == Prop(policies, k)
    ensures var current := Prop(Prop(settings, "policies"), policy);
      current.Obj? ==> forall k :: k != "content" ==> Prop(Prop(Prop(r, "policies"), policy), k) == Prop(current, k)
  {
    var policies := Prop(settings, "policies");
    var current := Prop(policies, policy);
    Obj(Spread(settings)["policies" := Obj(Spread(policies)[policy := Obj(Spread(current)["content" := content])])])
  }

  /** Writing back the content a policy already has leaves well-formed
      settings as they were. */
  lemma PolicyChangeWithSameContent(settings: Json, policy: string)
    requires settings.Obj? && Prop(settings, "policies").Obj?
    requires Prop(Prop(settings, "policies"), policy).Obj?
    requires "content" in Prop(Prop(settings, "policies"), policy).fields
    ensures WithPolicyContent(settings, policy, Prop(Prop(Prop(settings, "policies"), policy), "content")) == settings
  {
    var policies := Prop(settings, "policies");
    var current := Prop(policies, policy);
    assert current.fields["content" := current.fields["content"]] == current.fields;
    assert policies.fields[policy := current] == policies.fields;
    assert settings.fields["policies" := policies] == settings.fields;
  }

  /** The select's label for a policy key:
      `key.replace(/([A-Z])/g, ' $1').trim()`. */
  function PolicyLabel(key: string): (text: string)
    ensures text != [] ==> !Text.IsSpace(text[0]) && !Text.IsSpace(text[|text| - 1])
  {
    Text.Trim(Text.SpaceBeforeCapitals(key))
  }

  /** A lower-case word followed by a capitalised one is labelled with a
      space between them: `privacyPolicy` reads `privacy Policy`. */
  lemma CamelCaseLabel(lower: string, upper: string)
    requires lower != [] && !Text.IsSpace(lower[0])
    requires forall i :: 0 <= i < |lower| ==> Text.IsLower(lower[i])
    requires upper != [] && Text.IsUpper(upper[0]) && !Text.IsSpace(upper[|upper| - 1])
    requires forall i :: 1 <= i < |upper| ==> Text.IsLower(upper[i])
    ensures PolicyLabel(lower + upper) == lower + " " + upper
  {
    var spaced := lower + " " + upper;
    assert Text.SpaceBeforeCapitals(lower + upper) == spaced by {
      CamelCaseSpaced(lower, upper);
    }
    assert Text.Trim(spaced) == spaced by {
      assert spaced[0] == lower[0] && spaced[|spaced| - 1] == upper[|upper| - 1];
      Text.TrimUntouched(spaced);
    }
  }

  lemma CamelCaseSpaced(lower: string, upper: string)
    requires forall i :: 0 <= i < |lower| ==> Text.IsLower(lower[i])
    requires upper != [] && Text.IsUpper(upper[0])
    requires forall i :: 1 <= i < |upper| ==> Text.IsLower(upper[i])
    ensures Text.SpaceBeforeCapitals(lower + upper) == lower + " " + upper
  {
    Text.SpaceBeforeCapitalsAppend(lower, upper);
    Text.SpaceBeforeNoCapitals(lower);
    Text.SpaceBeforeCapitalizedWord(upper);
    assert lower + ([' '] + upper) == lower + " " + upper;
  }

  // ---------------------------------------------------------------------
  // Support categories
  // ---------------------------------------------------------------------

  /** `settings.support?.categories`. */
  function Categories(settings: Json): Json
  {
    Prop(Prop(settings, "support"), "categories")
  }

  /** `{...settings, support: {...settings.support, categories}}`. */
  function WithCategories(settings: Json, categories: seq<Json>): (r: Json)
    ensures r.Obj? && Categories(r) == Arr(categories)
    ensures settings.Obj? ==> forall k :: k != "support" ==> Prop(r, k) == Prop(settings, k)
    ensures var support := Prop(settings, "support");
      support.Obj? ==> forall k :: k != "categories" ==> Prop(Prop(r, "support"), k) == Prop(support, k)
  {
    var support := Prop(settings, "support");
    Obj(Spread(settings)["support" := Obj(Spread(support)["categories" := Arr(categories)])])
  }

  /** Storing the categories a well-formed settings object already has gives it back. */
  lemma WithOwnCategories(settings: Json)
    requires settings.Obj? && Prop(settings, "support").Obj? && Categories(settings).Arr?
    ensures WithCategories(settings, Categories(settings).elems) == settings
  {
    var support := Prop(settings, "support");
    assert support.fields["categories" := Categories(settings)] == support.fields;
    assert settings.fields["support" := support] == settings.fields;
  }

  const NewCategory: Json := Obj(map["title" := Str("New Category"), "description" := Str("")])

  /** "Add Category": `[...(categories || []), {title: 'New Category', description: ''}]`;
      `None` when the categories cannot be spread. */
  function AddCategory(settings: Json): (r: Option<Json>)
    ensures Categories(settings).Arr? ==>
      r == Some(WithCategories(settings, Categories(settings).elems + [NewCategory]))
    ensures !Truthy(Categories(settings)) ==> r == Some(WithCategories(settings, [NewCategory]))
    ensures r.None? <==> Truthy(Categories(settings)) && !Categories(settings).Arr? && !Categories(settings).Str?
  {
    match SpreadElements(Or(Categories(settings), Arr([])))
    case None => None
    case Some(elems) =>
      assert !Truthy(Categories(settings)) ==> elems + [NewCategory] == [NewCategory];
      Some(WithCategories(settings, elems + [NewCategory]))
  }

  /** The remove button of row `index`: `categories.filter((_, i) => i !== index)`.
      Rows are rendered from the array, so `index` is one of its positions. */
  function RemoveCategory(settings: Json, index: nat): (r: Json)
    requires Categories(settings).Arr? && index < |Categories(settings).elems|
    ensures var before := Categories(settings).elems;
      Categories(r).Arr? && |Categories(r).elems| == |before| - 1
      && Categories(r).elems == before[..index] + before[index + 1..]
  {
    WithCategories(settings, Lists.RemoveIndex(Categories(settings).elems, index))
  }

  /** Removing the category just added leaves well-formed settings as they were. */
  lemma RemoveAddedCategory(settings: Json)
    requires settings.Obj? && Prop(settings, "support").Obj? && Categories(settings).Arr?
    ensures var added := AddCategory(settings).value;
      Categories(added).Arr? && RemoveCategory(added, |Categories(settings).elems|) == settings
  {
    var elems := Categories(settings).elems;
    var support := Prop(settings, "support");
    var added := AddCategory(settings).value;
    assert added == WithCategories(settings, elems + [NewCategory]);
    assert added.fields == settings.fields["support" := Obj(support.fields["categories" := Arr(elems + [NewCategory])])];
    assert Prop(added, "support") == Obj(support.fields["categories" := Arr(elems + [NewCategory])]);
    assert (elems + [NewCategory])[..|elems|] == elems;
    assert Lists.RemoveIndex(elems + [NewCategory], |elems|) == elems;
    var grown := Obj(support.fields["categories" := Arr(elems + [NewCategory])]);
    var kept := Obj(support.fields["categories" := Arr(elems)]);
    calc {
      RemoveCategory(added, |elems|);
      WithCategories(added, elems);
      Obj(settings.fields["support" := grown]["support" := Obj(grown.fields["categories" := Arr(elems)])]);
      { assert grown.fields["categories" := Arr(elems)] == kept.fields; }
      Obj(settings.fields["support" := grown]["support" := kept]);
      { assert settings.fields["support" := grown]["support" := kept] == settings.fields["support" := kept]; }
      Obj(settings.fields["support" := Obj(support.fields["categories" := Arr(elems)])]);
      { WithOwnCategories(settings); }
      settings;
    }
  }

  /** The two text inputs of a category row. */
  datatype CategoryField = Title | Description
  {
    function Key(): (k: string)
      ensures k == "title" || k == "description"
    {
      match this
      case Title => "title"
      case Description => "description"
    }
  }

  /** Typing `value` into one field of row `index`: a copy of the array
      whose element `index` gets the new field. `None` when that element
      is not an object (assigning to a property of it throws). */
  function EditCategory(settings: Json, index: nat, field: CategoryField, value: string): (r: Option<Json>)
    requires Categories(settings).Arr? && index < |Categories(settings).elems|
    ensures var before := Categories(settings).elems;
      r.Some? <==> before[index].Obj?
    ensures var before := Categories(settings).elems;
      r.Some? ==>
        var after := Categories(r.value);
        after.Arr? && |after.elems| == |before|
        && (forall j :: 0 <= j < |before| && j != index ==> after.elems[j] == before[j])
        && Prop(after.elems[index], field.Key()) == Str(value)
        && (forall k :: k != field.Key() ==> Prop(after.elems[index], k) == Prop(before[index], k))
  {
    var before := Categories(settings).elems;
    var category := before[index];
    if !category.Obj? then None
    else Some(WithCategories(settings, before[index := Obj(category.fields[field.Key() := Str(value)])]))
  }

  // ---------------------------------------------------------------------
  // The page
  // ---------------------------------------------------------------------

  /** The outcome of the `PUT` of the settings: the response body, or the
      error it threw. */
  datatype SaveReply = Saved(body: Json) | SaveThrew(error: Json)

  const LoadFailed: string := "Failed to load settings"
  const SaveSucceeded: string := "Settings updated successfully"
  const SaveFailed: string := "Failed to update settings"
  const PasswordsDiffer: string := "Passwords do not match"
  const PasswordNotImplemented: string := "Password update not implemented in this demo"
  const ProfileNotImplemented: string := "Profile update not implemented in this demo"
  const ReloadDelay: nat := 1000

  class Page {
    var settings: Json
    var activeTab: string
    var activePolicy: string
    var loading: bool
    var saving: bool
    var newPassword: string
    var confirmPassword: string
    var log: seq<Effect>

    constructor (initial: Json)
      ensures settings == initial && activeTab == "branding" && activePolicy == "privacyPolicy"
      ensures loading && !saving && newPassword == "" && confirmPassword == "" && log == []
    {
      settings := initial;
      activeTab := "branding";
      activePolicy := "privacyPolicy";
      loading := true;
      saving := false;
      newPassword := "";
      confirmPassword := "";
      log := [];
    }

    /** `fetchSettings` with the body of the `GET` response, or `None` when
        the request throws. Settings are replaced only by a successful body
        whose colours could be defaulted. */
    method FetchSettings(reply: Option<Json>)
      modifies this`settings, this`loading, this`log
      ensures !loading
      ensures reply.Some? && !Nullish(reply.value) && !Truthy(Prop(reply.value, "success")) ==>
        settings == old(settings) && log == old(log)
      ensures reply.Some? && Truthy(Prop(reply.value, "success"))
              && WithDefaultColors(Prop(reply.value, "data")).Some? ==>
        settings == WithDefaultColors(Prop(reply.value, "data")).value && log == old(log)
      ensures reply.None? || Nullish(reply.value)
              || (Truthy(Prop(reply.value, "success")) && WithDefaultColors(Prop(reply.value, "data")).None?) ==>
        settings == old(settings) && log == old(log) + [Notify(Failure(LoadFailed))]
    {
      loading := true;
      if reply.None? || Nullish(reply.value) {
        log := log + [Notify(Failure(LoadFailed))];
      } else if Truthy(Prop(reply.value, "success")) {
        match WithDefaultColors(Prop(reply.value, "data")) {
          case None =>
            log := log + [Notify(Failure(LoadFailed))];
          case Some(fetched) =>
            settings := fetched;
        }
      }
      loading := false;
    }

    /** `handleSettingsUpdate`: a successful save stores the server's copy,
        refetches the global settings, and schedules a reload only on the
        branding tab; `saving` is false on every path. */
    method HandleSettingsUpdate(reply: SaveReply)
      modifies this`settings, this`saving, this`log
      ensures !saving
      ensures var save := Call(SaveSettings(old(settings)));
        reply.Saved? && !Nullish(reply.body) && Truthy(Prop(reply.body, "success")) ==>
          settings == Prop(reply.body, "data")
          && log == old(log) + [save, Call(RefetchSettings), Notify(Success(SaveSucceeded))]
                    + (if activeTab == "branding" then [Later(ReloadDelay, ReloadLater)] else [])
      ensures var save := Call(SaveSettings(old(settings)));
        reply.Saved? && !Nullish(reply.body) && !Truthy(Prop(reply.body, "success")) ==>
          settings == old(settings) && log == old(log) + [save]
      ensures var save := Call(SaveSettings(old(settings)));
        reply.Saved? && Nullish(reply.body) ==>
          settings == old(settings) && log == old(log) + [save, Notify(Failure(SaveFailed))]
      ensures var save := Call(SaveSettings(old(settings)));
        reply.SaveThrew? ==>
          var message := Or(At(reply.error, ["response", "data", "message"]), Str(SaveFailed));
          settings == old(settings) && log == old(log) + [save, Notify(Failure(JsString(message)))]
    {
      saving := true;
      log := log + [Call(SaveSettings(settings))];
      match reply {
        case Saved(body) =>
          if Nullish(body) {
            log := log + [Notify(Failure(SaveFailed))];
          } else if Truthy(Prop(body, "success")) {
            settings := Prop(body, "data");
            log := log + [Call(RefetchSettings), Notify(Success(SaveSucceeded))];
            if activeTab == "branding" {
              log := log + [Later(ReloadDelay, ReloadLater)];
            }
          }
        case SaveThrew(error) =>
          var message := Or(At(error, ["response", "data", "message"]), Str(SaveFailed));
          log := log + [Notify(Failure(JsString(message)))];
      }
      saving := false;
    }

    /** `handleProfileUpdate`: only a notice. */
    method HandleProfileUpdate()
      modifies this`log
      ensures log == old(log) + [Notify(Info(ProfileNotImplemented))]
    {
      log := log + [Notify(Info(ProfileNotImplemented))];
    }

    /** `handlePasswordUpdate`: differing new and confirmed passwords are
        reported; matching ones get the not-implemented notice. */
    method HandlePasswordUpdate()
      modifies this`log
      ensures newPassword != confirmPassword ==> log == old(log) + [Notify(Failure(PasswordsDiffer))]
      ensures newPassword == confirmPassword ==> log == old(log) + [Notify(Info(PasswordNotImplemented))]
    {
      if newPassword != confirmPassword {
        log := log + [Notify(Failure(PasswordsDiffer))];
        return;
      }
      log := log + [Notify(Info(PasswordNotImplemented))];
    }

    /** `handlePolicyChange(content)` for the selected policy. */
    method HandlePolicyChange(content: Json)
      modifies this`settings
      ensures settings == WithPolicyContent(old(settings), activePolicy, content)
    {
      settings := WithPolicyContent(settings, activePolicy, content);
    }

    /** "Add Category"; nothing changes when the handler throws. */
    method AddCategoryClicked()
      modifies this`settings
      ensures AddCategory(old(settings)).Some? ==> settings == AddCategory(old(settings)).value
      ensures AddCategory(old(settings)).None? ==> settings == old(settings)
    {
      var next := AddCategory(settings);
      if next.Some? {
        settings := next.value;
      }
    }

    /** The remove button of a rendered row. */
    method RemoveCategoryClicked(index: nat)
      requires Categories(settings).Arr? && index < |Categories(settings).elems|
      modifies this`settings
      ensures settings == RemoveCategory(old(settings), index)
    {
      settings := RemoveCategory(settings, index);
    }

    /** Typing into a field of a rendered row; nothing changes when the handler throws. */
    method CategoryEdited(index: nat, field: CategoryField, value: string)
      requires Categories(settings).Arr? && index < |Categories(settings).elems|
      modifies this`settings
      ensures EditCategory(old(settings), index, field, value).Some? ==>
        settings == EditCategory(old(settings), index, field, value).value
      ensures EditCategory(old(settings), index, field, value).None? ==> settings == old(settings)
    {
      var next := EditCategory(settings, index, field, value);
      if next.Some? {
        settings := next.value;
      }
    }
  }
}
