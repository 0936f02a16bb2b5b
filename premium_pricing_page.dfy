/** The premium pricing page: the same checkout state machine as the
    public pricing page, keyed by the whole plan object, with a three-way
    verification and the props it hands to the checkout form. */
module PremiumPricingPage {
  import opened Js
  import opened Optional
  import opened Effects
  import opened PaymentApi
  import StripeCheckoutForm
  import ProfilePage

  const LoginNotice: string := "Please login to continue"
  const PremiumNotice: string := "You already have an active premium subscription!"
  const StartedNotice: string := "Payment initiated! Please complete the checkout."
  const ActivatedNotice: string := "🎉 Payment successful! Premium activated!"
  const PendingNotice: string := "Payment is still processing..."
  const UnconfirmedNotice: string := "Payment verification pending. Please check your email."

  /** The start request for a plan object: its type, name and price, and
      its currency or `'USD'`. */
  function StartRequest(plan: Json): (r: Request)
    ensures r.StartPayment? && Truthy(r.currency)
    ensures r.planType == Prop(plan, "type") && r.planName == Prop(plan, "name") && r.amount == Prop(plan, "price")
    ensures Truthy(Prop(plan, "currency")) ==> r.currency == Prop(plan, "currency")
  {
    StartPayment(Prop(plan, "type"), Prop(plan, "name"), Prop(plan, "price"), Or(Prop(plan, "currency"), Str("USD")))
  }

  /** The three-way report of a manual verification; a thrown error is
      swallowed. */
  function VerifyEffects(v: Verdict): (e: seq<Effect>)
    ensures v == Premium ==> e == [Notify(Success(ActivatedNotice)), Later(1500, ReloadLater)]
    ensures v == Pending ==> e == [Notify(Info(PendingNotice))]
    ensures v == Unconfirmed ==> e == [Notify(Warning(UnconfirmedNotice))]
    ensures v == VerifyThrew ==> e == []
  {
    match v
    case Premium => [Notify(Success(ActivatedNotice)), Later(1500, ReloadLater)]
    case Pending => [Notify(Info(PendingNotice))]
    case Unconfirmed => [Notify(Warning(UnconfirmedNotice))]
    case VerifyThrew => []
  }

  /** Every answered reply that does not throw is reported with exactly one
      notice, and only an activation reloads. */
  lemma VerifyReportsEveryAnswer(r: Reply)
    ensures ClassifyVerify(r) != VerifyThrew ==> |VerifyEffects(ClassifyVerify(r))| >= 1
    ensures Later(1500, ReloadLater) in VerifyEffects(ClassifyVerify(r)) <==> CheckActivation(r) == Activated
  {
  }

  /** `processingPayment && selectedPlan?.id === plan.id`. */
  predicate SelectDisabled(processing: bool, selectedPlan: Json, plan: Json)
    ensures SelectDisabled(processing, selectedPlan, plan) ==> processing
  {
    processing && Prop(selectedPlan, "id") == Prop(plan, "id")
  }

  /** Only the plan being processed is disabled, and nothing is disabled
      once processing ends; plans without an `id` all compare equal. */
  lemma SelectDisabledOnlyWhileProcessing(selectedPlan: Json, plan: Json, other: Json)
    ensures !SelectDisabled(false, selectedPlan, plan)
    ensures SelectDisabled(true, plan, plan)
    ensures SelectDisabled(true, selectedPlan, plan) && Prop(other, "id") != Prop(plan, "id") ==>
      !SelectDisabled(true, selectedPlan, other)
  {
  }

  /** The checkout form's props as the page passes them: amount and
      currency from the selected plan, and no `paymentId` at all. */
  function CheckoutPropsAsWritten(selectedPlan: Json, paymentId: Json): (p: StripeCheckoutForm.Props)
    ensures p.paymentId == Undefined
    ensures p.amount == Prop(selectedPlan, "price") && Truthy(p.currency)
  {
    StripeCheckoutForm.Props(Prop(selectedPlan, "price"), Or(Prop(selectedPlan, "currency"), Str("USD")), Undefined)
  }

  /** The props with the started payment's id passed along, as the public
      pricing page does. */
  function CheckoutProps(selectedPlan: Json, paymentId: Json): (p: StripeCheckoutForm.Props)
    ensures p.paymentId == paymentId
    ensures p.amount == Prop(selectedPlan, "price") && Truthy(p.currency)
  {
    StripeCheckoutForm.Props(Prop(selectedPlan, "price"), Or(Prop(selectedPlan, "currency"), Str("USD")), paymentId)
  }

  /** As written, whatever payment was started, Stripe sends the customer
      back with `paymentId=undefined`, and the profile page then verifies a
      payment named "undefined". */
  lemma ReturnLosesPaymentId(selectedPlan: Json, paymentId: Json)
    ensures var props := CheckoutPropsAsWritten(selectedPlan, paymentId);
      && StripeCheckoutForm.ReturnSearch(props.paymentId) == StripeCheckoutForm.ReturnSearch(Str("undefined"))
      && ProfilePage.VerificationTarget(StripeCheckoutForm.ReturnSearch(props.paymentId), false) == Some("undefined")
  {
    ProfilePage.ReturnStartsVerification("undefined");
  }

  /** With the id passed, the return leads the profile page to verify the
      payment that was started. */
  lemma ReturnVerifiesStartedPayment(selectedPlan: Json, id: string)
    requires ProfilePage.UrlSafe(id) && id != ""
    ensures ProfilePage.VerificationTarget(
              StripeCheckoutForm.ReturnSearch(CheckoutProps(selectedPlan, Str(id)).paymentId), false) == Some(id)
  {
    ProfilePage.ReturnStartsVerification(id);
  }

  class Page {
    /** The plan object being bought, `null` when none. */
    var selectedPlan: Json
    var processingPayment: bool
    var showCheckout: bool
    var clientSecret: Json
    var paymentId: Json
    var log: seq<Effect>

    constructor ()
      ensures selectedPlan == Null && !processingPayment && !showCheckout
      ensures clientSecret == Str("") && paymentId == Null && log == []
    {
      selectedPlan := Null;
      processingPayment := false;
      showCheckout := false;
      clientSecret := Str("");
      paymentId := Null;
      log := [];
    }

    /** The props the checkout overlay hands to the form, as written: the
        started payment's id is not among them. */
    function FormProps(): (p: StripeCheckoutForm.Props)
      reads this
      ensures p == CheckoutPropsAsWritten(selectedPlan, paymentId)
      ensures p.paymentId == Undefined && p.amount == Prop(selectedPlan, "price")
    {
      CheckoutPropsAsWritten(selectedPlan, paymentId)
    }

    /** `startPayment(plan)`: one start request for the plan (a missing
        plan throws before it is sent); the reply opens the checkout or is
        reported, and processing ends on every path. */
    method StartPayment(plan: Json, reply: Reply)
      modifies this
      ensures !processingPayment && selectedPlan == old(selectedPlan)
      ensures Nullish(plan) ==>
        && paymentId == old(paymentId) && clientSecret == old(clientSecret) && showCheckout == old(showCheckout)
        && log == old(log) + [Notify(Failure(StartCrashed))]
      ensures !Nullish(plan) ==>
        var started := ClassifyStart(reply);
        && (started.Started? ==>
              && paymentId == started.paymentId && clientSecret == started.clientSecret && showCheckout
              && log == old(log) + [Call(StartRequest(plan)), Notify(Success(StartedNotice))])
        && (!started.Started? ==>
              && paymentId == old(paymentId) && clientSecret == old(clientSecret)
              && showCheckout == old(showCheckout)
              && log == old(log) + [Call(StartRequest(plan)), Notify(Failure(StartFailureMessage(started)))])
    {
      processingPayment := true;
      if Nullish(plan) {
        log := log + [Notify(Failure(StartCrashed))];
      } else {
        log := log + [Call(StartRequest(plan))];
        var started := ClassifyStart(reply);
        if started.Started? {
          paymentId := started.paymentId;
          clientSecret := started.clientSecret;
          showCheckout := true;
          log := log + [Notify(Success(StartedNotice))];
        } else {
          log := log + [Notify(Failure(StartFailureMessage(started)))];
        }
      }
      processingPayment := false;
    }

    /** `handleSelectPlan(plan)`: the sign-in and premium gates, then the
        plan is selected and its payment started. */
    method HandleSelectPlan(user: Json, token: Json, plan: Json, reply: Reply)
      modifies this
      ensures PaymentGate(user, token) == SignInFirst ==>
        log == old(log) + [Notify(Info(LoginNotice)), Navigate(Str("/login"), FromPricing, false)]
      ensures PaymentGate(user, token) == AlreadySubscribed ==>
        log == old(log) + [Notify(Info(PremiumNotice))]
      ensures PaymentGate(user, token) != Proceed ==>
        processingPayment == old(processingPayment) && selectedPlan == old(selectedPlan)
        && showCheckout == old(showCheckout) && clientSecret == old(clientSecret) && paymentId == old(paymentId)
      ensures PaymentGate(user, token) == Proceed ==>
        && selectedPlan == plan && !processingPayment
        && (Nullish(plan) ==>
              && paymentId == old(paymentId) && clientSecret == old(clientSecret) && showCheckout == old(showCheckout)
              && log == old(log) + [Notify(Failure(StartCrashed))])
        && (!Nullish(plan) ==>
              var started := ClassifyStart(reply);
              && (started.Started? ==>
                    && paymentId == started.paymentId && clientSecret == started.clientSecret && showCheckout
                    && log == old(log) + [Call(StartRequest(plan)), Notify(Success(StartedNotice))])
              && (!started.Started? ==>
                    && paymentId == old(paymentId) && clientSecret == old(clientSecret)
                    && showCheckout == old(showCheckout)
                    && log == old(log) + [Call(StartRequest(plan)), Notify(Failure(StartFailureMessage(started)))]))
    {
      var gate := PaymentGate(user, token);
      if gate == SignInFirst {
        log := log + [Notify(Info(LoginNotice)), Navigate(Str("/login"), FromPricing, false)];
        return;
      }
      if gate == AlreadySubscribed {
        log := log + [Notify(Info(PremiumNotice))];
        return;
      }
      selectedPlan := plan;
      StartPayment(plan, reply);
    }

    /** `closeCheckout`: hides the overlay, forgets the secret and the plan,
        and schedules one verification two seconds later iff a payment id is
        known. */
    method CloseCheckout()
      modifies this
      ensures !showCheckout && clientSecret == Str("") && selectedPlan == Null
      ensures paymentId == old(paymentId) && processingPayment == old(processingPayment)
      ensures Truthy(paymentId) ==> log == old(log) + [Later(2000, VerifyLater(paymentId))]
      ensures !Truthy(paymentId) ==> log == old(log)
    {
      showCheckout := false;
      clientSecret := Str("");
      selectedPlan := Null;
      if Truthy(paymentId) {
        log := log + [Later(2000, VerifyLater(paymentId))];
      }
    }

    /** `verifyPayment(id)`: one verify request and its three-way report. */
    method VerifyPayment(id: Json, reply: Reply)
      modifies this`log
      ensures log == old(log) + [Call(Effects.VerifyPayment(id))] + VerifyEffects(ClassifyVerify(reply))
    {
      log := log + [Call(Effects.VerifyPayment(id))] + VerifyEffects(ClassifyVerify(reply));
    }
  }
}
