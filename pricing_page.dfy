/** The public pricing page's checkout state machine: starting a payment
    for a plan, closing the checkout overlay and checking the payment
    afterwards, plus the duration label and the subscribe button's guard. */
module PricingPage {
  import opened Js
  import opened Optional
  import Text
  import opened Effects
  import opened PaymentApi
  import SettingsContext
  import StripeCheckoutForm
  import ProfilePage

  /** The `{ planType, planName, amount, currency }` record kept while a
      payment is being started or paid. */
  datatype SelectedPlan = SelectedPlan(planType: Json, planName: Json, amount: Json, currency: Json)

  const LoginNotice: string := "Please login to subscribe"
  const PremiumNotice: string := "You already have an active premium subscription!"
  const StartedNotice: string := "Payment initialized! Please complete the checkout."
  const ActivatedNotice: string := "🎉 Payment successful! Premium activated!"
  const PendingNotice: string := "Payment is still processing..."

  /** The `currency = 'USD'` default parameter, which only an omitted
      (`undefined`) argument triggers. */
  function CurrencyParameter(currency: Json): (c: Json)
    ensures currency.Undefined? ==> c == Str("USD")
    ensures !currency.Undefined? ==> c == currency
  {
    if currency.Undefined? then Str("USD") else currency
  }

  /** The currency the start request carries: `currency || 'USD'` after the default. */
  function RequestCurrency(currency: Json): (c: Json)
    ensures Truthy(c)
    ensures Truthy(currency) ==> c == currency
    ensures !Truthy(currency) ==> c == Str("USD")
  {
    Or(CurrencyParameter(currency), Str("USD"))
  }

  /** What the page shows after a manual verification. */
  function VerifyEffects(v: Verdict): (e: seq<Effect>)
    ensures v == Premium ==> e == [Notify(Success(ActivatedNotice)), Later(1500, ReloadLater)]
    ensures v == Pending ==> e == [Notify(Info(PendingNotice))]
    ensures v == Unconfirmed || v == VerifyThrew ==> e == []
  {
    match v
    case Premium => [Notify(Success(ActivatedNotice)), Later(1500, ReloadLater)]
    case Pending => [Notify(Info(PendingNotice))]
    case _ => []
  }

  /** A verification reloads the page exactly when the reply reports an
      active premium subscription, and errors never surface. */
  lemma VerifyReloadsIffActivated(r: Reply)
    ensures Later(1500, ReloadLater) in VerifyEffects(ClassifyVerify(r)) <==> CheckActivation(r) == Activated
    ensures r.Threw? ==> VerifyEffects(ClassifyVerify(r)) == []
  {
  }

  /** The plan-duration suffix shown next to a price. */
  function DurationText(duration: Json): (t: string)
    ensures duration == Num(30) ==> t == "/month"
    ensures duration == Num(365) ==> t == "/year"
    ensures duration == Num(730) ==> t == "/2 years"
    ensures duration !in {Num(30), Num(365), Num(730)} ==> t == "/" + JsString(duration) + " days"
  {
    if duration == Num(30) then "/month"
    else if duration == Num(365) then "/year"
    else if duration == Num(730) then "/2 years"
    else "/" + JsString(duration) + " days"
  }

  /** A day-count label is none of the three named ones. */
  lemma DayCountLabel(n: nat)
    ensures n !in {30, 365, 730} ==> DurationText(Num(n)) !in {"/month", "/year", "/2 years"}
  {
    if n !in {30, 365, 730} {
      var t := DurationText(Num(n));
      assert t[|t| - 5..] == " days";
    }
  }

  /** Different day counts never share a label. */
  lemma DurationTextInjective(a: nat, b: nat)
    requires DurationText(Num(a)) == DurationText(Num(b))
    ensures a == b
  {
    DayCountLabel(a);
    DayCountLabel(b);
    if a !in {30, 365, 730} && b !in {30, 365, 730} {
      var ta, tb := DurationText(Num(a)), DurationText(Num(b));
      var sa, sb := Text.NatToString(a), Text.NatToString(b);
      assert sa == ta[1..|ta| - 5] && sb == tb[1..|tb| - 5];
      Text.NatToStringInjective();
    }
  }

  /** `user?.isPremium && user?.premiumPlan === plan.type`: the plan is the
      user's current one, so its button does nothing. */
  predicate IsCurrentPlan(user: Json, plan: Json)
    ensures IsCurrentPlan(user, plan) ==> user.Obj? && Truthy(Prop(user, "isPremium"))
  {
    Truthy(Prop(user, "isPremium")) && Prop(user, "premiumPlan") == Prop(plan, "type")
  }

  /** `selectedPlan?.planType`, which is `undefined` when nothing is selected. */
  function SelectedType(selected: Option<SelectedPlan>): (t: Json)
    ensures selected.None? ==> t == Undefined
    ensures selected.Some? ==> t == selected.value.planType
  {
    if selected.Some? then selected.value.planType else Undefined
  }

  /** The subscribe button is disabled while this plan type is being
      processed, and on the user's current plan. */
  predicate SubscribeDisabled(processing: bool, selected: Option<SelectedPlan>, user: Json, plan: Json)
    ensures !processing ==> (SubscribeDisabled(processing, selected, user, plan) <==> IsCurrentPlan(user, plan))
    ensures IsCurrentPlan(user, plan) ==> SubscribeDisabled(processing, selected, user, plan)
  {
    (processing && SelectedType(selected) == Prop(plan, "type")) || IsCurrentPlan(user, plan)
  }

  /** When nothing is being processed, the button is disabled exactly on the
      plans whose click the handler ignores. */
  lemma DisabledIffIgnored(selected: Option<SelectedPlan>, user: Json, plan: Json)
    ensures !SubscribeDisabled(false, selected, user, plan) <==> !IsCurrentPlan(user, plan)
    ensures IsCurrentPlan(user, plan) ==> SubscribeDisabled(true, selected, user, plan)
  {
  }

  /** The currency a click on `plan` asks for: the plan's own, else the
      site's configured currency, else the `'USD'` default. */
  function ClickCurrency(plan: Json, settings: SettingsContext.Settings): (c: Json)
    ensures Truthy(Prop(plan, "currency")) ==> c == Prop(plan, "currency")
    ensures !Truthy(Prop(plan, "currency")) && Truthy(settings.branding.currency) ==> c == settings.branding.currency
  {
    RequestCurrency(Or(Prop(plan, "currency"), settings.branding.currency))
  }

  /** With settings that went through the normaliser (or are the defaults),
      the `'USD'` fallback is never reached: a plan without a currency is
      charged in the site's currency, `'EGP'` when none is configured. */
  lemma NoUsdFallback(plan: Json, api: Json)
    requires !Truthy(Prop(plan, "currency"))
    ensures ClickCurrency(plan, SettingsContext.Normalize(api)) == Or(At(api, ["branding", "currency"]), Str("EGP"))
    ensures ClickCurrency(plan, SettingsContext.DefaultSettings) == Str("EGP")
  {
    SettingsContext.CurrencyFallback(api);
  }

  /** The checkout form's props: the selected plan's amount and currency
      (or `'USD'`), and the started payment's id. */
  function CheckoutProps(selected: Option<SelectedPlan>, paymentId: Json): (p: StripeCheckoutForm.Props)
    ensures p.paymentId == paymentId && Truthy(p.currency)
    ensures selected.Some? ==> p.amount == selected.value.amount
    ensures selected.None? ==> p.amount == Undefined && p.currency == Str("USD")
  {
    var amount := if selected.Some? then selected.value.amount else Undefined;
    var currency := if selected.Some? then selected.value.currency else Undefined;
    StripeCheckoutForm.Props(amount, Or(currency, Str("USD")), paymentId)
  }

  /** Coming back from Stripe leads the profile page to verify the payment
      this page started. */
  lemma ReturnVerifiesStartedPayment(selected: Option<SelectedPlan>, id: string)
    requires ProfilePage.UrlSafe(id) && id != ""
    ensures ProfilePage.VerificationTarget(
              StripeCheckoutForm.ReturnSearch(CheckoutProps(selected, Str(id)).paymentId), false) == Some(id)
  {
    ProfilePage.ReturnStartsVerification(id);
  }

  class Page {
    var processingPayment: bool
    var selectedPlan: Option<SelectedPlan>
    var showCheckout: bool
    var clientSecret: Json
    var paymentId: Json
    /** Everything the page did to the outside world, in order. */
    var log: seq<Effect>

    constructor ()
      ensures !processingPayment && selectedPlan == None && !showCheckout
      ensures clientSecret == Str("") && paymentId == Null && log == []
    {
      processingPayment := false;
      selectedPlan := None;
      showCheckout := false;
      clientSecret := Str("");
      paymentId := Null;
      log := [];
    }

    /** The props the checkout overlay hands to the form. */
    function FormProps(): (p: StripeCheckoutForm.Props)
      reads this
      ensures p == CheckoutProps(selectedPlan, paymentId)
    {
      CheckoutProps(selectedPlan, paymentId)
    }

    /** `handlePayment`: the sign-in and premium gates, then one start
        request whose answer `reply` either opens the checkout with the
        returned ids or reports the failure; processing ends on every path. */
    method HandlePayment(user: Json, token: Json, planType: Json, planName: Json, amount: Json,
                         currency: Json, reply: Reply)
      modifies this
      ensures !processingPayment || PaymentGate(user, token) != Proceed
      ensures PaymentGate(user, token) == SignInFirst ==>
        log == old(log) + [Notify(Info(LoginNotice)), Navigate(Str("/login"), FromPricing, false)]
      ensures PaymentGate(user, token) == AlreadySubscribed ==>
        log == old(log) + [Notify(Info(PremiumNotice))]
      ensures PaymentGate(user, token) != Proceed ==>
        processingPayment == old(processingPayment) && selectedPlan == old(selectedPlan)
        && showCheckout == old(showCheckout) && clientSecret == old(clientSecret) && paymentId == old(paymentId)
      ensures PaymentGate(user, token) == Proceed ==>
        var request := Call(StartPayment(planType, planName, amount, RequestCurrency(currency)));
        var started := ClassifyStart(reply);
        && selectedPlan == Some(SelectedPlan(planType, planName, amount, CurrencyParameter(currency)))
        && (started.Started? ==>
              && paymentId == started.paymentId && clientSecret == started.clientSecret && showCheckout
              && log == old(log) + [request, Notify(Success(StartedNotice))])
        && (!started.Started? ==>
              && paymentId == old(paymentId) && clientSecret == old(clientSecret)
              && showCheckout == old(showCheckout)
              && log == old(log) + [request, Notify(Failure(StartFailureMessage(started)))])
    {
      var gate := PaymentGate(user, token);
      if gate == SignInFirst {
        log := log + [Notify(Info(LoginNotice)), Navigate(Str("/login"), FromPricing, false)];
        return;
      }
      if gate == AlreadySubscribed {
        log := log + [Notify(Info(PremiumNotice))];
        return;
      }
      var cur := CurrencyParameter(currency);
      selectedPlan := Some(SelectedPlan(planType, planName, amount, cur));
      processingPayment := true;
      log := log + [Call(StartPayment(planType, planName, amount, Or(cur, Str("USD"))))];
      var started := ClassifyStart(reply);
      if started.Started? {
        paymentId := started.paymentId;
        clientSecret := started.clientSecret;
        showCheckout := true;
        log := log + [Notify(Success(StartedNotice))];
      } else {
        log := log + [Notify(Failure(StartFailureMessage(started)))];
      }
      processingPayment := false;
    }

    /** The subscribe button: a click on the user's current plan does
        nothing; any other click pays for the plan in its own currency or
        the site's. */
    method Subscribe(user: Json, token: Json, plan: Json, settings: SettingsContext.Settings, reply: Reply)
      modifies this
      ensures IsCurrentPlan(user, plan) ==>
        log == old(log) && processingPayment == old(processingPayment) && selectedPlan == old(selectedPlan)
        && showCheckout == old(showCheckout) && clientSecret == old(clientSecret) && paymentId == old(paymentId)
      ensures !IsCurrentPlan(user, plan) && PaymentGate(user, token) == Proceed ==>
        && selectedPlan.Some? && selectedPlan.value.planType == Prop(plan, "type")
        && |log| == |old(log)| + 2
        && log[|old(log)|] == Call(StartPayment(Prop(plan, "type"), Prop(plan, "name"), Prop(plan, "price"),
                                                ClickCurrency(plan, settings)))
    {
      if IsCurrentPlan(user, plan) {
        return;
      }
      HandlePayment(user, token, Prop(plan, "type"), Prop(plan, "name"), Prop(plan, "price"),
                    Or(Prop(plan, "currency"), settings.branding.currency), reply);
    }

    /** `closeCheckout`: hides the overlay, forgets the secret and the plan,
        and schedules one verification two seconds later iff a payment id is
        known. */
    method CloseCheckout()
      modifies this
      ensures !showCheckout && clientSecret == Str("") && selectedPlan == None
      ensures paymentId == old(paymentId) && processingPayment == old(processingPayment)
      ensures Truthy(paymentId) ==> log == old(log) + [Later(2000, VerifyLater(paymentId))]
      ensures !Truthy(paymentId) ==> log == old(log)
    {
      showCheckout := false;
      clientSecret := Str("");
      selectedPlan := None;
      if Truthy(paymentId) {
        log := log + [Later(2000, VerifyLater(paymentId))];
      }
    }

    /** `verifyPayment(id)`: one verify request; its reply decides between
        the activation notice with a reload, the processing notice, or
        silence. The checkout state is untouched. */
    method VerifyPayment(id: Json, reply: Reply)
      modifies this`log
      ensures log == old(log) + [Call(Effects.VerifyPayment(id))] + VerifyEffects(ClassifyVerify(reply))
    {
      log := log + [Call(Effects.VerifyPayment(id))];
      log := log + VerifyEffects(ClassifyVerify(reply));
    }
  }
}
