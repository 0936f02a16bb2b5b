/** The admin pricing-plans page: the plan form with its defaults, the
    feature-list editor, the edit modal and the create/update/delete
    handlers. */
module AdminPricingPage {
  import opened Js
  import opened Optional
  import Text
  import Lists
  import opened Effects

  /** The plan form. Every field holds whatever JavaScript value was put
      there; `features` is normally an array of strings. */
  datatype PlanForm = PlanForm(
    name: Json, planType: Json, subject: Json, price: Json, currency: Json, duration: Json,
    features: Json, isActive: Json, displayOrder: Json, stripePriceId: Json, popular: Json)

  /** The form a new plan starts from. */
  const DefaultForm: PlanForm := PlanForm(
    Str(""), Str("monthly"), Str("all"), Num(0), Str("PKR"), Num(30),
    Arr([]), Bool(true), Num(0), Str(""), Bool(false))

  /** The form `openEditModal` fills from a plan. */
  function EditForm(plan: Json): (f: PlanForm)
    ensures f.name == Prop(plan, "name") && f.planType == Prop(plan, "type")
    ensures f.subject == Prop(plan, "subject") && f.price == Prop(plan, "price")
    ensures f.currency == Prop(plan, "currency") && f.duration == Prop(plan, "duration")
    ensures f.isActive == Prop(plan, "isActive") && f.displayOrder == Prop(plan, "displayOrder")
    ensures Truthy(Prop(plan, "features")) ==> f.features == Prop(plan, "features")
    ensures !Truthy(Prop(plan, "features")) ==> f.features == Arr([])
    ensures Truthy(Prop(plan, "stripePriceId")) ==> f.stripePriceId == Prop(plan, "stripePriceId")
    ensures !Truthy(Prop(plan, "stripePriceId")) ==> f.stripePriceId == Str("")
    ensures f.popular == Bool(Truthy(Prop(plan, "popular")))
  {
    PlanForm(Prop(plan, "name"), Prop(plan, "type"), Prop(plan, "subject"), Prop(plan, "price"),
             Prop(plan, "currency"), Prop(plan, "duration"), Or(Prop(plan, "features"), Arr([])),
             Prop(plan, "isActive"), Prop(plan, "displayOrder"), Or(Prop(plan, "stripePriceId"), Str("")),
             Bool(Truthy(Prop(plan, "popular"))))
  }

  /** The form as the object the create and update calls send: every
      field under its own key. */
  function FormJson(f: PlanForm): (j: Json)
    ensures j.Obj? && j.fields.Keys == FormKeys
    ensures Prop(j, "name") == f.name && Prop(j, "type") == f.planType && Prop(j, "subject") == f.subject
    ensures Prop(j, "price") == f.price && Prop(j, "currency") == f.currency && Prop(j, "duration") == f.duration
    ensures Prop(j, "features") == f.features && Prop(j, "isActive") == f.isActive
    ensures Prop(j, "displayOrder") == f.displayOrder && Prop(j, "stripePriceId") == f.stripePriceId
    ensures Prop(j, "popular") == f.popular
  {
    Obj(map["name" := f.name, "type" := f.planType, "subject" := f.subject,
            "price" := f.price, "currency" := f.currency, "duration" := f.duration,
            "features" := f.features, "isActive" := f.isActive,
            "displayOrder" := f.displayOrder, "stripePriceId" := f.stripePriceId,
            "popular" := f.popular])
  }

  const FormKeys: set<string> := {"name", "type", "subject", "price", "currency", "duration",
                                  "features", "isActive", "displayOrder", "stripePriceId", "popular"}

  /** A plan saved from a form with a list of features and a price id comes
      back unchanged into the edit form (`popular` as a boolean). */
  lemma EditFormOfFormPlan(f: PlanForm)
    requires f.features.Arr? && f.popular.Bool?
    requires Truthy(f.stripePriceId)
    ensures EditForm(FormJson(f)) == f
  {
  }

  const PlanUpdated: string := "Plan updated successfully"
  const PlanCreated: string := "Plan created successfully"
  const OperationFailed: string := "Operation failed"
  const PlanDeleted: string := "Plan deleted successfully"
  const DeleteFailed: string := "Failed to delete plan"
  const LoadFailed: string := "Failed to load pricing plans"

  class Page {
    var plans: Json
    var loading: bool
    var showModal: bool
    var editingPlan: Json
    var formData: PlanForm
    var featureInput: string
    var log: seq<Effect>

    constructor ()
      ensures plans == Arr([]) && loading && !showModal && editingPlan == Null
      ensures formData == DefaultForm && featureInput == "" && log == []
    {
      plans := Arr([]);
      loading := true;
      showModal := false;
      editingPlan := Null;
      formData := DefaultForm;
      featureInput := "";
      log := [];
    }

    /** `fetchPlans` with the reply of `getAllPricingPlans`, or `None` when
        that call throws. */
    method FetchPlans(reply: Option<Json>)
      modifies this`plans, this`loading, this`log
      ensures !loading
      ensures reply.Some? && !Nullish(reply.value) && Truthy(Prop(reply.value, "success")) ==>
        plans == Prop(reply.value, "data") && log == old(log)
      ensures reply.Some? && !Nullish(reply.value) && !Truthy(Prop(reply.value, "success")) ==>
        plans == old(plans) && log == old(log)
      ensures reply.None? || Nullish(reply.value) ==>
        plans == old(plans) && log == old(log) + [Notify(Failure(LoadFailed))]
    {
      loading := true;
      if reply.None? || Nullish(reply.value) {
        log := log + [Notify(Failure(LoadFailed))];
      } else if Truthy(Prop(reply.value, "success")) {
        plans := Prop(reply.value, "data");
      }
      loading := false;
    }

    /** `addFeature`: a non-blank input is appended trimmed and the input
        cleared; a blank input changes nothing. When the feature list
        cannot be spread the handler throws and nothing changes either. */
    method AddFeature()
      modifies this`formData, this`featureInput
      ensures Text.Blank(old(featureInput)) || SpreadElements(old(formData).features).None? ==>
        formData == old(formData) && featureInput == old(featureInput)
      ensures !Text.Blank(old(featureInput)) && SpreadElements(old(formData).features).Some? ==>
        formData == old(formData).(features := Arr(SpreadElements(old(formData).features).value
                                                   + [Str(Text.Trim(old(featureInput)))]))
        && featureInput == ""
    {
      var trimmed := Text.Trim(featureInput);
      Text.BlankIffTrimEmpty(featureInput);
      if trimmed != "" {
        var elems := SpreadElements(formData.features);
        if elems.Some? {
          formData := formData.(features := Arr(elems.value + [Str(trimmed)]));
          featureInput := "";
        }
      }
    }

    /** `removeFeature(index)`: the feature at `index` is dropped and the
        others keep their order; a list that is not an array has no
        `filter`, so the handler throws and nothing changes. */
    method RemoveFeature(index: nat)
      modifies this`formData
      ensures old(formData).features.Arr? ==>
        formData == old(formData).(features := Arr(Lists.RemoveIndex(old(formData).features.elems, index)))
      ensures !old(formData).features.Arr? ==> formData == old(formData)
    {
      if formData.features.Arr? {
        formData := formData.(features := Arr(Lists.RemoveIndex(formData.features.elems, index)));
      }
    }

    /** `openEditModal(plan)`. */
    method OpenEditModal(plan: Json)
      modifies this`editingPlan, this`formData, this`showModal
      ensures editingPlan == plan && formData == EditForm(plan) && showModal
    {
      editingPlan := plan;
      formData := EditForm(plan);
      showModal := true;
    }

    /** `resetForm()`: no plan being edited, the default form and an empty feature input. */
    method ResetForm()
      modifies this`editingPlan, this`formData, this`featureInput
      ensures editingPlan == Null && formData == DefaultForm && featureInput == ""
    {
      editingPlan := Null;
      formData := DefaultForm;
      featureInput := "";
    }

    /** The "Add Plan" button: a fresh default form in the open modal. */
    method OpenCreateModal()
      modifies this`editingPlan, this`formData, this`featureInput, this`showModal
      ensures editingPlan == Null && formData == DefaultForm && featureInput == "" && showModal
    {
      ResetForm();
      showModal := true;
    }

    /** `handleSubmit`: update the plan being edited, or create one;
        `failure` is the error the call threw, if any. */
    method HandleSubmit(failure: Option<Json>)
      modifies this`editingPlan, this`formData, this`featureInput, this`showModal, this`log
      ensures var request := if Truthy(old(editingPlan)) then UpdatePlan(Prop(old(editingPlan), "_id"), FormJson(old(formData)))
                             else CreatePlan(FormJson(old(formData)));
        failure.None? ==>
          log == old(log) + [Call(request),
                             Notify(Success(if Truthy(old(editingPlan)) then PlanUpdated else PlanCreated)),
                             Call(GetPlans)]
          && !showModal && editingPlan == Null && formData == DefaultForm && featureInput == ""
      ensures var request := if Truthy(old(editingPlan)) then UpdatePlan(Prop(old(editingPlan), "_id"), FormJson(old(formData)))
                             else CreatePlan(FormJson(old(formData)));
        failure.Some? ==>
          var message := Or(At(failure.value, ["response", "data", "message"]), Str(OperationFailed));
          log == old(log) + [Call(request), Notify(Failure(JsString(message)))]
          && showModal == old(showModal) && editingPlan == old(editingPlan)
          && formData == old(formData) && featureInput == old(featureInput)
    {
      var request := if Truthy(editingPlan) then UpdatePlan(Prop(editingPlan, "_id"), FormJson(formData))
                     else CreatePlan(FormJson(formData));
      log := log + [Call(request)];
      if failure.None? {
        var notice := if Truthy(editingPlan) then PlanUpdated else PlanCreated;
        log := log + [Notify(Success(notice))];
        showModal := false;
        ResetForm();
        log := log + [Call(GetPlans)];
      } else {
        var message := Or(At(failure.value, ["response", "data", "message"]), Str(OperationFailed));
        log := log + [Notify(Failure(JsString(message)))];
      }
    }

    /** `handleDelete(id)`: `confirmed` is whether the dialog resolved
        (`false` when it rejected with `false`), `deleted` whether the
        delete call succeeded. A cancelled dialog makes no call and shows
        no error. */
    method HandleDelete(id: Json, confirmed: bool, deleted: bool)
      modifies this`log
      ensures !confirmed ==> log == old(log)
      ensures confirmed && deleted ==>
        log == old(log) + [Call(DeletePlan(id)), Notify(Success(PlanDeleted)), Call(GetPlans)]
      ensures confirmed && !deleted ==>
        log == old(log) + [Call(DeletePlan(id)), Notify(Failure(DeleteFailed))]
    {
      if !confirmed {
        return;
      }
      log := log + [Call(DeletePlan(id))];
      if deleted {
        log := log + [Notify(Success(PlanDeleted)), Call(GetPlans)];
      } else {
        log := log + [Notify(Failure(DeleteFailed))];
      }
    }
  }

  /** Adding a feature and then removing the last position gives back the
      list it was added to. */
  lemma RemoveAddedFeature(features: seq<Json>, feature: Json)
    ensures Lists.RemoveIndex(features + [feature], |features|) == features
  {
    assert (features + [feature])[..|features|] == features;
  }

  /** Removing a feature keeps every other one, in order: the one after the
      removed position moves down by one, the ones before stay put. */
  lemma RemoveFeatureShifts(features: seq<Json>, index: nat, i: nat)
    requires index < |features| && i < |features| - 1
    ensures i < index ==> Lists.RemoveIndex(features, index)[i] == features[i]
    ensures i >= index ==> Lists.RemoveIndex(features, index)[i] == features[i + 1]
  {
  }
}
