/** The login form: where a successful login leads and which error line a
    failed one shows. */
module LoginPage {
  import opened Js
  import opened Optional
  import opened Effects
  import opened AuthForms
  import PaymentApi

  /** `location.state?.from || (result.user.role === 'admin' ? '/admin/dashboard' : '/subjects')`;
      `None` when the role has to be read from a missing `user`. */
  function Destination(state: Json, result: Json): (to: Option<Json>)
    ensures Truthy(Prop(state, "from")) ==> to == Some(Prop(state, "from"))
    ensures !Truthy(Prop(state, "from")) && !Nullish(Prop(result, "user")) ==>
      to == Some(if Prop(Prop(result, "user"), "role") == Str("admin") then Str("/admin/dashboard") else Str("/subjects"))
    ensures to.None? <==> !Truthy(Prop(state, "from")) && Nullish(Prop(result, "user"))
    ensures to.Some? ==> Truthy(to.value)
  {
    var from := Prop(state, "from");
    if Truthy(from) then Some(from)
    else if Nullish(Prop(result, "user")) then None
    else if Prop(Prop(result, "user"), "role") == Str("admin") then Some(Str("/admin/dashboard"))
    else Some(Str("/subjects"))
  }

  /** A visitor the pricing pages sent to log in goes back to `/pricing`,
      whatever their role. */
  lemma BackToPricing(result: Json)
    ensures Destination(PaymentApi.FromPricing, result) == Some(Str("/pricing"))
  {
    assert Prop(PaymentApi.FromPricing, "from") == Str("/pricing");
  }

  /** The form's `error` line and its effects after one submission. */
  datatype Outcome = Outcome(error: Json, effects: seq<Effect>)

  function SubmitOutcome(email: string, password: string, state: Json, reply: AuthReply): (o: Outcome)
    ensures |o.effects| >= 1 && o.effects[0] == Call(Login(email, password))
    ensures reply.Threw? ==> o == Outcome(Str(ErrorOccurred), [Call(Login(email, password))])
    ensures reply.Resolved? && !Nullish(reply.result) && Truthy(Prop(reply.result, "success"))
            && Destination(state, reply.result).Some? ==>
      o == Outcome(Str(""), [Call(Login(email, password)),
                             Navigate(Destination(state, reply.result).value, Undefined, true)])
    ensures reply.Resolved? && !Nullish(reply.result) && !Truthy(Prop(reply.result, "success"))
            && !ErrorsListed(Prop(reply.result, "errors")) ==>
      o.error == Or(Prop(reply.result, "message"), Str("Invalid email or password"))
  {
    var call := [Call(Login(email, password))];
    match reply
    case Threw => Outcome(Str(ErrorOccurred), call)
    case Resolved(result) =>
      if Nullish(result) then Outcome(Str(ErrorOccurred), call)
      else if Truthy(Prop(result, "success")) then
        match Destination(state, result)
        case None => Outcome(Str(ErrorOccurred), call)
        case Some(to) => Outcome(Str(""), call + [Navigate(to, Undefined, true)])
      else
        match FailureError(result, "Invalid email or password")
        case None => Outcome(Str(ErrorOccurred), call)
        case Some(e) => Outcome(e, call)
  }

  /** Only a successful login navigates, always replacing the login entry,
      and then the error line is empty. */
  lemma NavigatesOnlyOnSuccess(email: string, password: string, state: Json, reply: AuthReply)
    ensures var o := SubmitOutcome(email, password, state, reply);
      |o.effects| == 2 <==>
        reply.Resolved? && !Nullish(reply.result) && Truthy(Prop(reply.result, "success"))
        && Destination(state, reply.result).Some?
    ensures var o := SubmitOutcome(email, password, state, reply);
      |o.effects| == 2 ==> o.effects[1].Navigate? && o.effects[1].replace && o.error == Str("")
  {
  }

  class Form {
    var error: Json
    var loading: bool
    var log: seq<Effect>

    constructor ()
      ensures error == Str("") && !loading && log == []
    {
      error := Str("");
      loading := false;
      log := [];
    }

    /** `handleSubmit`: clears the error, calls `login`, then navigates or
        shows the error; loading ends on every path. */
    method HandleSubmit(email: string, password: string, state: Json, reply: AuthReply)
      modifies this
      ensures var o := SubmitOutcome(email, password, state, reply);
        error == o.error && log == old(log) + o.effects
      ensures !loading
    {
      error := Str("");
      loading := true;
      log := log + [Call(Login(email, password))];
      if reply.Threw? || Nullish(reply.result) {
        error := Str(ErrorOccurred);
      } else if Truthy(Prop(reply.result, "success")) {
        var to := Destination(state, reply.result);
        if to.Some? {
          log := log + [Navigate(to.value, Undefined, true)];
        } else {
          error := Str(ErrorOccurred);
        }
      } else {
        var failure := FailureError(reply.result, "Invalid email or password");
        error := if failure.Some? then failure.value else Str(ErrorOccurred);
      }
      loading := false;
    }
  }
}
