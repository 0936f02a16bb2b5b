/** The Stripe checkout form: the guard that waits for Stripe.js, the
    return URL handed to `confirmPayment`, and how an immediate
    confirmation error is reported. */
module StripeCheckoutForm {
  import opened Js
  import opened Effects

  /** The form's props that reach its logic. */
  datatype Props = Props(amount: Json, currency: Json, paymentId: Json)

  /** What `stripe.confirmPayment` does: leave for the return URL, or come
      back at once with an error of some `type`. */
  datatype Confirmation = Redirected | Rejected(errorType: Json, message: Json)

  const UnexpectedError: string := "An unexpected error occurred."

  /** The query string of the page Stripe sends the customer back to. */
  function ReturnSearch(paymentId: Json): (q: string)
    ensures |q| == 27 + |JsString(paymentId)| && q[27..] == JsString(paymentId)
  {
    "?payment=success&paymentId=" + JsString(paymentId)
  }

  /** `${origin}/profile?payment=success&paymentId=${paymentId}`: the
      profile page, with the search string it reads the payment from. */
  function ReturnUrl(origin: string, paymentId: Json): (u: string)
    ensures |u| == |origin| + 8 + |ReturnSearch(paymentId)|
    ensures u[..|origin|] == origin
    ensures u[|origin|..|origin| + 8] == "/profile"
    ensures u[|origin| + 8..] == ReturnSearch(paymentId)
  {
    origin + "/profile" + ReturnSearch(paymentId)
  }

  /** Card and validation errors carry a message meant for the customer;
      every other kind is reported with a fixed sentence. */
  function ErrorMessage(errorType: Json, message: Json): (m: Json)
    ensures errorType == Str("card_error") || errorType == Str("validation_error") ==> m == message
    ensures errorType != Str("card_error") && errorType != Str("validation_error") ==> m == Str(UnexpectedError)
  {
    if errorType == Str("card_error") || errorType == Str("validation_error") then message
    else Str(UnexpectedError)
  }

  class Form {
    /** The error line under the form, `null` until one is shown. */
    var message: Json
    var isLoading: bool
    var log: seq<Effect>

    constructor ()
      ensures message == Null && !isLoading && log == []
    {
      message := Null;
      isLoading := false;
      log := [];
    }

    /** `handleSubmit`: nothing happens before Stripe and its elements are
        loaded; otherwise the form is busy while the payment is confirmed
        with the return URL, and an immediate error is shown and ends the
        busy state. A redirect leaves the page, so the form stays busy. */
    method HandleSubmit(stripeLoaded: bool, elementsLoaded: bool, origin: string, paymentId: Json,
                        result: Confirmation)
      modifies this
      ensures !(stripeLoaded && elementsLoaded) ==>
        message == old(message) && isLoading == old(isLoading) && log == old(log)
      ensures stripeLoaded && elementsLoaded && result.Redirected? ==>
        && isLoading && message == old(message)
        && log == old(log) + [Call(ConfirmPayment(ReturnUrl(origin, paymentId))),
                              Redirect(ReturnUrl(origin, paymentId))]
      ensures stripeLoaded && elementsLoaded && result.Rejected? ==>
        var shown := ErrorMessage(result.errorType, result.message);
        && !isLoading && message == shown
        && log == old(log) + [Call(ConfirmPayment(ReturnUrl(origin, paymentId))),
                              Notify(Failure(JsString(shown)))]
    {
      if !stripeLoaded || !elementsLoaded {
        return;
      }
      isLoading := true;
      var url := ReturnUrl(origin, paymentId);
      log := log + [Call(ConfirmPayment(url))];
      match result {
        case Redirected =>
          log := log + [Redirect(url)];
        case Rejected(errorType, errorMessage) =>
          message := ErrorMessage(errorType, errorMessage);
          log := log + [Notify(Failure(JsString(message)))];
          isLoading := false;
      }
    }
  }
}
