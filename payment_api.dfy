/** The parts of the payment flow that the pricing pages and the profile
    page share: who may start a payment, and how the answers of
    `POST /payments/start` and `POST /payments/verify/:id` are read. */
module PaymentApi {
  import opened Js

  /** What a `fetch` followed by `response.json()` gives: a rejection
      (network failure or a body that is not JSON) or the parsed body. */
  datatype Reply = Threw | Answered(data: Json)

  /** The router state both pricing pages send to the login page, so that
      the user comes back to `/pricing`. */
  const FromPricing: Json := Obj(map["from" := Str("/pricing")])

  /** Where a click on a paid plan leads. */
  datatype Gate = SignInFirst | AlreadySubscribed | Proceed

  /** `!user || !token` sends to login; `user.isPremium && user.premiumPlan`
      stops with a notice whatever plan was clicked; anyone else proceeds. */
  function PaymentGate(user: Json, token: Json): (g: Gate)
    ensures g == SignInFirst <==> !Truthy(user) || !Truthy(token)
    ensures g == AlreadySubscribed <==>
      Truthy(user) && Truthy(token) && Truthy(Prop(user, "isPremium")) && Truthy(Prop(user, "premiumPlan"))
  {
    if !Truthy(user) || !Truthy(token) then SignInFirst
    else if Truthy(Prop(user, "isPremium")) && Truthy(Prop(user, "premiumPlan")) then AlreadySubscribed
    else Proceed
  }

  /** How `POST /payments/start` ended. */
  datatype StartResult =
    | Started(paymentId: Json, clientSecret: Json)
    | Refused(message: Json)
    | StartThrew

  const StartFailed: string := "Failed to start payment"
  const StartCrashed: string := "Failed to start payment. Please try again."

  /** `data.success` gives the ids from `data.data`, otherwise
      `data.message || 'Failed to start payment'`; a rejection, a `null`
      body, or a success whose `data` is missing throws. */
  function ClassifyStart(r: Reply): (s: StartResult)
    ensures r.Threw? ==> s == StartThrew
    ensures r.Answered? && !Nullish(r.data) && Truthy(Prop(r.data, "success"))
            && !Nullish(Prop(r.data, "data")) ==>
      s == Started(Prop(Prop(r.data, "data"), "paymentId"), Prop(Prop(r.data, "data"), "clientSecret"))
    ensures r.Answered? && !Nullish(r.data) && !Truthy(Prop(r.data, "success")) ==>
      s == Refused(Or(Prop(r.data, "message"), Str(StartFailed)))
    ensures s.Refused? ==> Truthy(s.message)
  {
    match r
    case Threw => StartThrew
    case Answered(data) =>
      if Nullish(data) then StartThrew
      else if Truthy(Prop(data, "success")) then
        var payment := Prop(data, "data");
        if Nullish(payment) then StartThrew
        else Started(Prop(payment, "paymentId"), Prop(payment, "clientSecret"))
      else Refused(Or(Prop(data, "message"), Str(StartFailed)))
  }

  /** The toast that reports a failed start: the backend's message (or the
      default) when it refused, the fixed retry notice when the call threw. */
  function StartFailureMessage(s: StartResult): (m: string)
    requires !s.Started?
    ensures s.StartThrew? ==> m == StartCrashed
    ensures s.Refused? && s.message.Str? ==> m == s.message.s
  {
    if s.StartThrew? then StartCrashed else JsString(s.message)
  }

  /** The reading of `data.success && data.data.isPremium`. */
  datatype Activation = Activated | NotActivated | CheckThrew

  function CheckActivation(r: Reply): (a: Activation)
    ensures a == Activated <==>
      r.Answered? && !Nullish(r.data) && Truthy(Prop(r.data, "success"))
      && Truthy(Prop(Prop(r.data, "data"), "isPremium"))
    ensures r.Answered? && !Nullish(r.data) && !Truthy(Prop(r.data, "success")) ==> a == NotActivated
  {
    match r
    case Threw => CheckThrew
    case Answered(data) =>
      if Nullish(data) then CheckThrew
      else if !Truthy(Prop(data, "success")) then NotActivated
      else if Nullish(Prop(data, "data")) then CheckThrew
      else if Truthy(Prop(Prop(data, "data"), "isPremium")) then Activated
      else NotActivated
  }

  /** How a manual `verifyPayment` call reads its reply. */
  datatype Verdict = Premium | Pending | Unconfirmed | VerifyThrew

  /** Activation first; otherwise `data.data.status === 'pending'`, which
      throws when `data.data` is missing. */
  function ClassifyVerify(r: Reply): (v: Verdict)
    ensures v == Premium <==> CheckActivation(r) == Activated
    ensures v == Pending <==>
      CheckActivation(r) == NotActivated && Prop(Prop(r.data, "data"), "status") == Str("pending")
    ensures CheckActivation(r) == CheckThrew ==> v == VerifyThrew
  {
    match CheckActivation(r)
    case Activated => Premium
    case CheckThrew => VerifyThrew
    case NotActivated =>
      var payment := Prop(r.data, "data");
      if Nullish(payment) then VerifyThrew
      else if Prop(payment, "status") == Str("pending") then Pending
      else Unconfirmed
  }
}
