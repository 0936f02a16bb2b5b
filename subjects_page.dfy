/** The public subjects page: the fetched subjects reshaped for the cards
    (identifier, description fallback, colour gradient by slug or level),
    the error and empty states, and the link each card leads to. */
module SubjectsPage {
  import opened Js
  import opened Optional
  import Text
  import Lists

  /** The gradients the page knows, by slug or by lower-cased level. */
  const GradientMap: map<string, string> := map[
    "as-level" := "from-[#11282b] to-[#0a1f22]",
    "a2-level" := "from-[#0a1f22] to-[#11282b]",
    "igcse" := "from-[#F7C94C] to-[#06b5cc]"]

  const DefaultGradient: string := "from-[#11282b] to-[#0a1f22]"
  const LoadFailed: string := "Failed to load subjects"
  const Unavailable: string := "Failed to load subjects. Please try again later."

  /** `gradientMap[key]` looked up by the key's string form. */
  function Lookup(key: string): (r: Option<string>)
    ensures r.Some? <==> key in GradientMap
    ensures r.Some? ==> r.value == GradientMap[key] && r.value != ""
  {
    if key in GradientMap then Some(GradientMap[key]) else None
  }

  /** `gradientMap[slug] || gradientMap[level?.toLowerCase()] || default`.
      `None` when the level is consulted and is neither nullish nor a
      string: it has no `toLowerCase` to call. */
  function Gradient(slug: Json, level: Json): (r: Option<string>)
    ensures JsString(slug) in GradientMap ==> r == Some(GradientMap[JsString(slug)])
    ensures JsString(slug) !in GradientMap && level.Str? && Text.ToLower(level.s) in GradientMap ==>
      r == Some(GradientMap[Text.ToLower(level.s)])
    ensures JsString(slug) !in GradientMap && level.Str? && Text.ToLower(level.s) !in GradientMap ==>
      r == Some(DefaultGradient)
    ensures JsString(slug) !in GradientMap && Nullish(level) ==> r == Some(DefaultGradient)
    ensures r.None? <==> JsString(slug) !in GradientMap && !Nullish(level) && !level.Str?
  {
    var bySlug := Lookup(JsString(slug));
    if bySlug.Some? then bySlug
    else if Nullish(level) then Some(DefaultGradient)
    else if level.Str? then
      var byLevel := Lookup(Text.ToLower(level.s));
      if byLevel.Some? then byLevel else Some(DefaultGradient)
    else None
  }

  /** The level is matched without regard to case: a level and its
      lower-cased form select the same gradient. */
  lemma LevelCaseInsensitive(slug: Json, level: string)
    ensures Gradient(slug, Str(level)) == Gradient(slug, Str(Text.ToLower(level)))
  {
    Text.ToLowerIdempotent(level);
  }

  /** `t` is `subject` as the page keeps it: the identifier is the slug or
      else the database id, the description falls back to empty, and the
      gradient is the one the slug or level selects. */
  ghost predicate Reshaped(subject: Json, t: Json)
    ensures Reshaped(subject, t) ==>
      (Truthy(Prop(t, "id")) <==> Truthy(Prop(subject, "slug")) || Truthy(Prop(subject, "_id")))
    ensures Reshaped(subject, t) ==> Prop(t, "gradient").Str? && Prop(t, "description") != Undefined
  {
    && Gradient(Prop(subject, "slug"), Prop(subject, "level")).Some?
    && Prop(t, "id") == Or(Prop(subject, "slug"), Prop(subject, "_id"))
    && Prop(t, "_id") == Prop(subject, "_id")
    && Prop(t, "name") == Prop(subject, "name")
    && Prop(t, "level") == Prop(subject, "level")
    && Prop(t, "slug") == Prop(subject, "slug")
    && (Truthy(Prop(subject, "description")) ==> Prop(t, "description") == Prop(subject, "description"))
    && (!Truthy(Prop(subject, "description")) ==> Prop(t, "description") == Str(""))
    && Prop(t, "gradient") == Str(Gradient(Prop(subject, "slug"), Prop(subject, "level")).value)
  }

  /** The subject as the page keeps it. `None` when reshaping it throws:
      the subject is nullish, or its gradient cannot be computed. */
  function Transform(subject: Json): (r: Option<Json>)
    ensures r.None? <==> Nullish(subject) || Gradient(Prop(subject, "slug"), Prop(subject, "level")).None?
    ensures r.Some? ==> Reshaped(subject, r.value)
  {
    if Nullish(subject) then None
    else
      var gradient := Gradient(Prop(subject, "slug"), Prop(subject, "level"));
      if gradient.None? then None
      else
        var fields := map[
          "id" := Or(Prop(subject, "slug"), Prop(subject, "_id")),
          "_id" := Prop(subject, "_id"),
          "name" := Prop(subject, "name"),
          "description" := Or(Prop(subject, "description"), Str("")),
          "level" := Prop(subject, "level"),
          "slug" := Prop(subject, "slug"),
          "gradient" := Str(gradient.value)];
        assert Prop(Obj(fields), "id") == fields["id"] && Prop(Obj(fields), "_id") == fields["_id"];
        assert Prop(Obj(fields), "name") == fields["name"] && Prop(Obj(fields), "level") == fields["level"];
        assert Prop(Obj(fields), "slug") == fields["slug"] && Prop(Obj(fields), "gradient") == fields["gradient"];
        assert Prop(Obj(fields), "description") == fields["description"];
        Some(Obj(fields))
  }

  /** `data.map(transform)`: every subject reshaped, in order, or `None`
      when one of them throws. */
  function TransformEach(subjects: seq<Json>): (r: Option<seq<Json>>)
    ensures r.Some? <==> forall i :: 0 <= i < |subjects| ==> Transform(subjects[i]).Some?
    ensures r.Some? ==>
      (|r.value| == |subjects| && forall i :: 0 <= i < |subjects| ==> Reshaped(subjects[i], r.value[i]))
  {
    Lists.TryMap(subjects, Transform)
  }

  /** How fetching ends: the reshaped list, or the error to show. */
  datatype Loaded = Subjects(list: seq<Json>) | Error(message: Json)

  /** The outcome of `fetchSubjects` for the reply of `getSubjects`, or
      `None` when that call throws. A reply that is not an object with a
      `data` array throws inside the handler and ends in the generic error. */
  function FetchOutcome(reply: Option<Json>): (r: Loaded)
    ensures r.Error? ==> Truthy(r.message)
    ensures reply.None? || Nullish(reply.value) ==> r == Error(Str(Unavailable))
    ensures reply.Some? && !Nullish(reply.value) && Truthy(Prop(reply.value, "success"))
            && (!Prop(reply.value, "data").Arr? || TransformEach(Prop(reply.value, "data").elems).None?) ==>
      r == Error(Str(Unavailable))
    ensures reply.Some? && !Nullish(reply.value) && !Truthy(Prop(reply.value, "success")) ==>
      r == Error(Or(Prop(reply.value, "message"), Str(LoadFailed)))
    ensures reply.Some? && !Nullish(reply.value) && Truthy(Prop(reply.value, "success"))
            && Prop(reply.value, "data").Arr? && TransformEach(Prop(reply.value, "data").elems).Some? ==>
      r == Subjects(TransformEach(Prop(reply.value, "data").elems).value)
    ensures r.Subjects? ==> reply.Some? && Truthy(Prop(reply.value, "success"))
  {
    assert Unavailable != "" && LoadFailed != "";
    if reply.None? || Nullish(reply.value) then Error(Str(Unavailable))
    else
      var result := reply.value;
      if Truthy(Prop(result, "success")) then
        var data := Prop(result, "data");
        if !data.Arr? then Error(Str(Unavailable))
        else
          var list := TransformEach(data.elems);
          if list.None? then Error(Str(Unavailable)) else Subjects(list.value)
      else Error(Or(Prop(result, "message"), Str(LoadFailed)))
  }

  /** `/subjects/${subject.slug || subject._id || subject.id}`. */
  function LinkTarget(subject: Json): (r: string)
    ensures |r| >= 10 && r[..10] == "/subjects/"
  {
    "/subjects/" + JsString(Or(Or(Prop(subject, "slug"), Prop(subject, "_id")), Prop(subject, "id")))
  }

  /** Every card links to the identifier the subject was given when it
      was reshaped. */
  lemma LinkUsesId(subject: Json)
    requires Transform(subject).Some?
    ensures LinkTarget(Transform(subject).value) == "/subjects/" + JsString(Prop(Transform(subject).value, "id"))
  {
    var t := Transform(subject).value;
    if !Truthy(Prop(t, "slug")) && !Truthy(Prop(t, "_id")) {
      assert Prop(t, "id") == Prop(subject, "_id");
    }
  }

  /** What the page shows. */
  datatype Screen = Loading | Failed(message: Json) | NoSubjects | Cards(links: seq<string>)

  class Page {
    var subjects: seq<Json>
    var loading: bool
    var error: Json

    constructor ()
      ensures subjects == [] && loading && error == Null
    {
      subjects := [];
      loading := true;
      error := Null;
    }

    /** The screen for the current state: loading first, then the error,
        then the empty notice, then one card per subject. */
    function View(): (s: Screen)
      reads this
      ensures loading ==> s == Loading
      ensures !loading && Truthy(error) ==> s == Failed(error)
      ensures !loading && !Truthy(error) ==> (s == NoSubjects <==> subjects == [])
      ensures s.Cards? ==>
        (|s.links| == |subjects| && forall i :: 0 <= i < |subjects| ==> s.links[i] == LinkTarget(subjects[i]))
    {
      if loading then Loading
      else if Truthy(error) then Failed(error)
      else if |subjects| == 0 then NoSubjects
      else
        var list := subjects;
        Cards(seq(|list|, i requires 0 <= i < |list| => LinkTarget(list[i])))
    }

    /** `fetchSubjects` with the reply of `getSubjects`. */
    method FetchSubjects(reply: Option<Json>)
      modifies this
      ensures !loading
      ensures FetchOutcome(reply).Subjects? ==> subjects == FetchOutcome(reply).list && error == Null
      ensures FetchOutcome(reply).Error? ==> subjects == old(subjects) && error == FetchOutcome(reply).message
    {
      loading := true;
      error := Null;
      var outcome := FetchOutcome(reply);
      if outcome.Subjects? {
        subjects := outcome.list;
      } else {
        error := outcome.message;
      }
      loading := false;
    }
  }

  /** A failed fetch always ends on the error screen. */
  lemma FailedFetchShowsError(p: Page, reply: Option<Json>)
    requires FetchOutcome(reply).Error?
    requires !p.loading && p.error == FetchOutcome(reply).message
    ensures p.View() == Failed(FetchOutcome(reply).message)
  {
  }
}
