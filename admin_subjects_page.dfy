/** The admin subjects page: the search filter over the fetched list, the
    colour-to-gradient lookup, the active badge, and the form and modal
    handlers. */
module AdminSubjectsPage {
  import opened Js
  import opened Optional
  import Text
  import Lists
  import opened Effects

  // ---------------------------------------------------------------------
  // Search
  // ---------------------------------------------------------------------

  /** `s.name.toLowerCase().includes(q) || s.description?.toLowerCase().includes(q)`
      for a lower-cased query `q`: `Some` of the answer, or `None` when it
      throws — a name that is not a string, or a description that is neither
      a string nor `null`/`undefined`, has no `toLowerCase`. The description
      is only looked at when the name does not match. */
  function Matches(q: string, subject: Json): (r: Option<bool>)
    ensures r == Some(true) <==>
      (Prop(subject, "name").Str? && Text.Contains(Text.ToLower(Prop(subject, "name").s), q))
      || (Prop(subject, "name").Str? && Prop(subject, "description").Str?
          && Text.Contains(Text.ToLower(Prop(subject, "description").s), q))
    ensures r == None <==>
      !Prop(subject, "name").Str?
      || (!Text.Contains(Text.ToLower(Prop(subject, "name").s), q)
          && !Nullish(Prop(subject, "description")) && !Prop(subject, "description").Str?)
  {
    var name := Prop(subject, "name");
    var description := Prop(subject, "description");
    if !name.Str? then None
    else if Text.Contains(Text.ToLower(name.s), q) then Some(true)
    else if Nullish(description) then Some(false)
    else if description.Str? then Some(Text.Contains(Text.ToLower(description.s), q))
    else None
  }

  /** The filter applied to the subjects of a successful response: every
      subject is matched, so one that throws makes the whole filter throw. */
  function SearchFilter(q: string, subjects: seq<Json>): (r: Option<seq<Json>>)
    ensures r.None? <==> exists i :: 0 <= i < |subjects| && Matches(q, subjects[i]).None?
  {
    if subjects == [] then Some([])
    else
      var head := Matches(q, subjects[0]);
      var tail := SearchFilter(q, subjects[1..]);
      if head.None? || tail.None? then
        assert head.None? ==> Matches(q, subjects[0]).None?;
        assert tail.None? ==> exists i :: 1 <= i < |subjects| && Matches(q, subjects[i]).None? by {
          if tail.None? {
            var j :| 0 <= j < |subjects[1..]| && Matches(q, subjects[1..][j]).None?;
            assert subjects[j + 1] == subjects[1..][j];
          }
        }
        None
      else
        assert forall i :: 1 <= i < |subjects| ==> subjects[i] == subjects[1..][i - 1];
        Some((if head.value then [subjects[0]] else []) + tail.value)
  }

  /** Whether a subject is kept by a search that does not throw. */
  predicate Kept(q: string, subject: Json)
  {
    Matches(q, subject) == Some(true)
  }

  /** A search that does not throw keeps exactly the matching subjects, in
      the server's order. */
  lemma {:induction false} SearchKeepsMatchesInOrder(q: string, subjects: seq<Json>)
    requires SearchFilter(q, subjects).Some?
    ensures SearchFilter(q, subjects).value == Lists.Filter(subjects, s => Kept(q, s))
  {
    if subjects != [] {
      SearchKeepsMatchesInOrder(q, subjects[1..]);
    }
  }

  /** What `fetchSubjects` does with a response. */
  datatype Fetched =
    | Unchanged           // `success` is falsy: the list is left alone
    | Listed(list: Json)  // the list passed to `setSubjects`
    | LoadFailed          // something threw: the error toast

  /** `response.success`, then `response.data.subjects || []`, then the
      search filter when `search` is non-empty. Reading a property of a
      `null`/`undefined` response or data throws. */
  function FetchResult(response: Json, search: string): (r: Fetched)
    ensures Nullish(response) ==> r == LoadFailed
    ensures !Nullish(response) && !Truthy(Prop(response, "success")) ==> r == Unchanged
    ensures Truthy(Prop(response, "success")) && Nullish(Prop(response, "data")) ==> r == LoadFailed
    ensures Truthy(Prop(response, "success")) && !Nullish(Prop(response, "data")) && search == "" ==>
      r == Listed(Or(Prop(Prop(response, "data"), "subjects"), Arr([])))
  {
    if Nullish(response) then LoadFailed
    else if !Truthy(Prop(response, "success")) then Unchanged
    else
      var data := Prop(response, "data");
      if Nullish(data) then LoadFailed
      else
        var list := Or(Prop(data, "subjects"), Arr([]));
        if search == "" then Listed(list)
        else if !list.Arr? then LoadFailed
        else match SearchFilter(Text.ToLower(search), list.elems)
          case None => LoadFailed
          case Some(kept) => Listed(Arr(kept))
  }

  /** An empty search keeps every subject of the response. */
  lemma EmptySearchKeepsAll(response: Json, subjects: seq<Json>)
    requires Truthy(Prop(response, "success"))
    requires Prop(Prop(response, "data"), "subjects") == Arr(subjects)
    ensures FetchResult(response, "") == Listed(Arr(subjects))
  {
  }

  /** A non-empty search over an array keeps exactly the matching subjects,
      in order, unless some subject makes it throw. */
  lemma SearchResult(response: Json, search: string, subjects: seq<Json>)
    requires Truthy(Prop(response, "success"))
    requires Prop(Prop(response, "data"), "subjects") == Arr(subjects)
    requires search != ""
    ensures var q := Text.ToLower(search);
      FetchResult(response, search) ==
        if exists i :: 0 <= i < |subjects| && Matches(q, subjects[i]).None? then LoadFailed
        else Listed(Arr(Lists.Filter(subjects, s => Kept(q, s))))
  {
    var q := Text.ToLower(search);
    if SearchFilter(q, subjects).Some? {
      SearchKeepsMatchesInOrder(q, subjects);
    }
  }

  // ---------------------------------------------------------------------
  // Gradient and status
  // ---------------------------------------------------------------------

  datatype GradientOption = GradientOption(name: string, value: string, gradient: string)

  const DefaultColor: string := "#06b5cc"
  const DefaultGradient: string := "from-[#11282b] to-[#06b5cc]"

  const GradientOptions: seq<GradientOption> := [
    GradientOption("Cyan", DefaultColor, DefaultGradient),
    GradientOption("Purple", "#8B5CF6", "from-[#8B5CF6] to-[#C4B5FD]"),
    GradientOption("Green", "#10B981", "from-[#10B981] to-[#6EE7B7]"),
    GradientOption("Amber", "#F59E0B", "from-[#F59E0B] to-[#FCD34D]"),
    GradientOption("Pink", "#EC4899", "from-[#EC4899] to-[#F9A8D4]")
  ]

  /** `options.find(g => g.value === color)`: the first option with that value. */
  function Find(options: seq<GradientOption>, color: Json): (r: Option<GradientOption>)
    ensures r.Some? ==> r.value in options && color == Str(r.value.value)
    ensures r.None? <==> forall i :: 0 <= i < |options| ==> color != Str(options[i].value)
  {
    if options == [] then None
    else if color == Str(options[0].value) then Some(options[0])
    else
      var rest := Find(options[1..], color);
      assert forall i :: 1 <= i < |options| ==> options[i] == options[1..][i - 1];
      rest
  }

  /** `find(...)?.gradient || 'from-[#11282b] to-[#06b5cc]'`. */
  function GradientFor(color: Json): (g: string)
    ensures Find(GradientOptions, color).None? ==> g == DefaultGradient
    ensures Find(GradientOptions, color).Some? ==> g == Find(GradientOptions, color).value.gradient
  {
    match Find(GradientOptions, color)
    case None => DefaultGradient
    case Some(option) => if option.gradient != "" then option.gradient else DefaultGradient
  }

  /** Every colour gets the gradient of the option with that value, and a
      colour no option has gets the cyan gradient. */
  lemma GradientOfEachOption(i: nat)
    requires i < |GradientOptions|
    ensures GradientFor(Str(GradientOptions[i].value)) == GradientOptions[i].gradient
  {
    var color := Str(GradientOptions[i].value);
    var found := Find(GradientOptions, color);
    assert found.Some?;
    assert GradientOptions[0].value == DefaultColor;
    assert found.value in GradientOptions;
    var j :| 0 <= j < |GradientOptions| && GradientOptions[j] == found.value;
    assert GradientOptions[j].value == GradientOptions[i].value;
    assert j == i;
  }

  /** `subject.status === 'active' || subject.isActive`, as the badge reads it. */
  predicate ShownActive(subject: Json)
  {
    Prop(subject, "status") == Str("active") || Truthy(Prop(subject, "isActive"))
  }

  // ---------------------------------------------------------------------
  // Form and modal
  // ---------------------------------------------------------------------

  /** The subject form; `isActive` holds whatever `status === 'active' || isActive` evaluates to. */
  datatype SubjectForm = SubjectForm(name: Json, description: Json, color: Json, isActive: Json)

  const EmptyForm: SubjectForm := SubjectForm(Str(""), Str(""), Str(DefaultColor), Bool(true))

  /** The form `openEditModal` fills from a subject. */
  function EditForm(subject: Json): (f: SubjectForm)
    ensures f.name == Prop(subject, "name")
    ensures Truthy(Prop(subject, "description")) ==> f.description == Prop(subject, "description")
    ensures !Truthy(Prop(subject, "description")) ==> f.description == Str("")
    ensures Truthy(Prop(subject, "color")) ==> f.color == Prop(subject, "color")
    ensures !Truthy(Prop(subject, "color")) ==> f.color == Str(DefaultColor)
    ensures Prop(subject, "status") == Str("active") ==> f.isActive == Bool(true)
    ensures Prop(subject, "status") != Str("active") ==> f.isActive == Prop(subject, "isActive")
    ensures Truthy(f.isActive) <==> ShownActive(subject)
  {
    SubjectForm(Prop(subject, "name"), Or(Prop(subject, "description"), Str("")),
                Or(Prop(subject, "color"), Str(DefaultColor)),
                if Prop(subject, "status") == Str("active") then Bool(true) else Prop(subject, "isActive"))
  }

  /** The form as the object the create and update calls send. */
  function FormJson(f: SubjectForm): (j: Json)
    ensures j.Obj? && j.fields.Keys == {"name", "description", "color", "isActive"}
    ensures Prop(j, "name") == f.name && Prop(j, "description") == f.description
    ensures Prop(j, "color") == f.color && Prop(j, "isActive") == f.isActive
  {
    Obj(map["name" := f.name, "description" := f.description, "color" := f.color, "isActive" := f.isActive])
  }

  /** A subject saved from a form with a description, a colour and an
      active flag comes back unchanged into the edit form. */
  lemma EditFormOfFormSubject(f: SubjectForm)
    requires Truthy(f.description) && Truthy(f.color)
    ensures EditForm(FormJson(f)) == f
  {
  }

  const SubjectUpdated: string := "Subject updated successfully"
  const SubjectCreated: string := "Subject created successfully"
  const OperationFailed: string := "Operation failed"
  const DeleteFailed: string := "Failed to delete subject"
  const DeleteSucceeded: string := "Subject deleted successfully"
  const LoadFailedNotice: string := "Failed to load subjects"

  class Page {
    var subjects: Json
    var loading: bool
    var search: string
    var showModal: bool
    var editingSubject: Json
    var formData: SubjectForm
    var log: seq<Effect>

    constructor ()
      ensures subjects == Arr([]) && loading && search == "" && !showModal
      ensures editingSubject == Null && formData == EmptyForm && log == []
    {
      subjects := Arr([]);
      loading := true;
      search := "";
      showModal := false;
      editingSubject := Null;
      formData := EmptyForm;
      log := [];
    }

    /** `fetchSubjects` with the reply of `getAllSubjects`, or `None` when that call throws. */
    method FetchSubjects(reply: Option<Json>)
      modifies this`subjects, this`loading, this`log
      ensures !loading
      ensures reply.None? ==> subjects == old(subjects) && log == old(log) + [Notify(Failure(LoadFailedNotice))]
      ensures reply.Some? && FetchResult(reply.value, search).Listed? ==>
        subjects == FetchResult(reply.value, search).list && log == old(log)
      ensures reply.Some? && FetchResult(reply.value, search).Unchanged? ==>
        subjects == old(subjects) && log == old(log)
      ensures reply.Some? && FetchResult(reply.value, search).LoadFailed? ==>
        subjects == old(subjects) && log == old(log) + [Notify(Failure(LoadFailedNotice))]
    {
      loading := true;
      if reply.None? {
        log := log + [Notify(Failure(LoadFailedNotice))];
      } else {
        match FetchResult(reply.value, search) {
          case Unchanged =>
          case Listed(list) =>
            subjects := list;
          case LoadFailed =>
            log := log + [Notify(Failure(LoadFailedNotice))];
        }
      }
      loading := false;
    }

    /** `openEditModal(subject)`. */
    method OpenEditModal(subject: Json)
      modifies this`editingSubject, this`formData, this`showModal
      ensures editingSubject == subject && formData == EditForm(subject) && showModal
    {
      editingSubject := subject;
      formData := EditForm(subject);
      showModal := true;
    }

    /** `resetForm()`: no subject being edited and the empty form. */
    method ResetForm()
      modifies this`editingSubject, this`formData
      ensures editingSubject == Null && formData == EmptyForm
    {
      editingSubject := Null;
      formData := EmptyForm;
    }

    /** The "Add Subject" button: the empty form in the open modal. */
    method OpenCreateModal()
      modifies this`editingSubject, this`formData, this`showModal
      ensures editingSubject == Null && formData == EmptyForm && showModal
    {
      ResetForm();
      showModal := true;
    }

    /** `handleSubmit`: update the subject being edited, or create one;
        `failure` is the error the call threw, if any. */
    method HandleSubmit(failure: Option<Json>)
      modifies this`editingSubject, this`formData, this`showModal, this`log
      ensures var request := if Truthy(old(editingSubject)) then UpdateSubject(Prop(old(editingSubject), "_id"), FormJson(old(formData)))
                             else CreateSubject(FormJson(old(formData)));
        failure.None? ==>
          log == old(log) + [Call(request),
                             Notify(Success(if Truthy(old(editingSubject)) then SubjectUpdated else SubjectCreated)),
                             Call(GetSubjects)]
          && !showModal && editingSubject == Null && formData == EmptyForm
      ensures var request := if Truthy(old(editingSubject)) then UpdateSubject(Prop(old(editingSubject), "_id"), FormJson(old(formData)))
                             else CreateSubject(FormJson(old(formData)));
        failure.Some? ==>
          var message := Or(At(failure.value, ["response", "data", "message"]), Str(OperationFailed));
          log == old(log) + [Call(request), Notify(Failure(JsString(message)))]
          && showModal == old(showModal) && editingSubject == old(editingSubject) && formData == old(formData)
    {
      var request := if Truthy(editingSubject) then UpdateSubject(Prop(editingSubject, "_id"), FormJson(formData))
                     else CreateSubject(FormJson(formData));
      log := log + [Call(request)];
      if failure.None? {
        var notice := if Truthy(editingSubject) then SubjectUpdated else SubjectCreated;
        log := log + [Notify(Success(notice))];
        showModal := false;
        ResetForm();
        log := log + [Call(GetSubjects)];
      } else {
        var message := Or(At(failure.value, ["response", "data", "message"]), Str(OperationFailed));
        log := log + [Notify(Failure(JsString(message)))];
      }
    }

    /** `handleDelete(id)`: `confirmed` is whether the dialog resolved
        (`false` when it rejected with `false`), `deleted` whether the
        delete call succeeded. A cancelled dialog makes no call and shows
        no error. */
    method HandleDelete(id: Json, confirmed: bool, deleted: bool)
      modifies this`log
      ensures !confirmed ==> log == old(log)
      ensures confirmed && deleted ==>
        log == old(log) + [Call(DeleteSubject(id)), Notify(Success(DeleteSucceeded)), Call(GetSubjects)]
      ensures confirmed && !deleted ==>
        log == old(log) + [Call(DeleteSubject(id)), Notify(Failure(DeleteFailed))]
    {
      if !confirmed {
        return;
      }
      log := log + [Call(DeleteSubject(id))];
      if deleted {
        log := log + [Notify(Success(DeleteSucceeded)), Call(GetSubjects)];
      } else {
        log := log + [Notify(Failure(DeleteFailed))];
      }
    }
  }
}
