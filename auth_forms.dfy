/** What the sign-up and login forms share: how a call into the auth
    context ends, and which error line a failed result produces. */
module AuthForms {
  import opened Js
  import opened Optional
  import Text

  /** How `await signup(...)` or `await login(...)` ends: an exception, or
      the result object. */
  datatype AuthReply = Threw | Resolved(result: Json)

  const ErrorOccurred: string := "An error occurred. Please try again."

  /** `errors?.length > 0` (the same test as `errors && errors.length > 0`):
      a non-empty array or string, or an object whose `length` is a
      positive number. */
  predicate ErrorsListed(errors: Json)
    ensures ErrorsListed(errors) ==> Truthy(errors)
  {
    (errors.Arr? && |errors.elems| > 0) || (errors.Str? && |errors.s| > 0)
    || (errors.Obj? && Prop(errors, "length").Num? && Prop(errors, "length").n > 0)
  }

  /** One mapped `err.message` as `join` prints it: nullish as empty. */
  function MessageText(err: Json): (t: string)
    ensures Prop(err, "message").Str? ==> t == Prop(err, "message").s
    ensures Nullish(Prop(err, "message")) ==> t == ""
  {
    var m := Prop(err, "message");
    if Nullish(m) then "" else JsString(m)
  }

  /** `errors.map(err => err.message).join(', ')` */
  function JoinedMessages(errs: seq<Json>): (t: string)
    ensures |errs| == 1 ==> t == MessageText(errs[0])
  {
    Text.Join(seq(|errs|, i requires 0 <= i < |errs| => MessageText(errs[i])), ", ")
  }

  /** The error line of a failed result: the listed errors' messages
      joined with `, `, otherwise `result.message || fallback`. `None`
      when building it throws: a listed `errors` that is not an array, or
      that holds a `null`. */
  function FailureError(result: Json, fallback: string): (e: Option<Json>)
    requires fallback != ""
    ensures !ErrorsListed(Prop(result, "errors")) ==> e == Some(Or(Prop(result, "message"), Str(fallback)))
    ensures !ErrorsListed(Prop(result, "errors")) ==> e.Some? && Truthy(e.value)
    ensures var errs := Prop(result, "errors");
      ErrorsListed(errs) && errs.Arr? && (forall i :: 0 <= i < |errs.elems| ==> !Nullish(errs.elems[i])) ==>
      e == Some(Str(JoinedMessages(errs.elems)))
    ensures var errs := Prop(result, "errors");
      e.None? <==> ErrorsListed(errs) && !(errs.Arr? && forall i :: 0 <= i < |errs.elems| ==> !Nullish(errs.elems[i]))
  {
    var errs := Prop(result, "errors");
    if !ErrorsListed(errs) then Some(Or(Prop(result, "message"), Str(fallback)))
    else if errs.Arr? && forall i :: 0 <= i < |errs.elems| ==> !Nullish(errs.elems[i]) then
      Some(Str(JoinedMessages(errs.elems)))
    else None
  }

  /** A single listed error with a text message is shown verbatim, whatever
      `result.message` says. */
  lemma SingleErrorShown(result: Json, fallback: string, m: string)
    requires fallback != ""
    requires Prop(result, "errors") == Arr([Obj(map["message" := Str(m)])])
    ensures FailureError(result, fallback) == Some(Str(m))
  {
    var err := Obj(map["message" := Str(m)]);
    assert Prop(err, "message") == Str(m);
  }
}
