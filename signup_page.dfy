/** The sign-up form: the ordered validation chain and what a submission
    does with the auth context's answer. */
module SignupPage {
  import opened Js
  import opened Optional
  import Text
  import opened Effects
  import opened AuthForms

  /** The checks `handleSubmit` runs, in the order it runs them. */
  datatype Check = MissingField | Mismatch | TooShort | NoLowercase | NoUppercase | NoDigit

  function CheckMessage(c: Check): (m: string)
    ensures m != ""
  {
    match c
    case MissingField => "Please fill in all fields"
    case Mismatch => "Passwords do not match"
    case TooShort => "Password must be at least 6 characters"
    case NoLowercase => "Password must contain at least one lowercase letter"
    case NoUppercase => "Password must contain at least one uppercase letter"
    case NoDigit => "Password must contain at least one number"
  }

  /** `/(?=.*[a-z])/.test(s)`: some lowercase letter. */
  predicate HasLower(s: string) { exists i :: 0 <= i < |s| && Text.IsLower(s[i]) }

  /** `/(?=.*[A-Z])/.test(s)`: some uppercase letter. */
  predicate HasUpper(s: string) { exists i :: 0 <= i < |s| && Text.IsUpper(s[i]) }

  /** `/(?=.*\d)/.test(s)`: some digit. */
  predicate HasDigit(s: string) { exists i :: 0 <= i < |s| && Text.IsDigit(s[i]) }

  /** Every check that the input fails, in the order the checks run. */
  function Failing(name: string, email: string, password: string, confirm: string): (fs: seq<Check>)
    ensures |fs| <= 6
  {
    (if name == "" || email == "" || password == "" || confirm == "" then [MissingField] else [])
    + (if password != confirm then [Mismatch] else [])
    + (if Text.Utf16Length(password) < 6 then [TooShort] else [])
    + (if !HasLower(password) then [NoLowercase] else [])
    + (if !HasUpper(password) then [NoUppercase] else [])
    + (if !HasDigit(password) then [NoDigit] else [])
  }

  /** The check that stops the submission, as the handler's early returns
      decide it; `None` lets the sign-up call through. */
  function Validate(name: string, email: string, password: string, confirm: string): (r: Option<Check>)
    ensures r == Some(MissingField) <==> name == "" || email == "" || password == "" || confirm == ""
    ensures r == Some(Mismatch) ==> password != confirm
  {
    if name == "" || email == "" || password == "" || confirm == "" then Some(MissingField)
    else if password != confirm then Some(Mismatch)
    else if Text.Utf16Length(password) < 6 then Some(TooShort)
    else if !HasLower(password) then Some(NoLowercase)
    else if !HasUpper(password) then Some(NoUppercase)
    else if !HasDigit(password) then Some(NoDigit)
    else None
  }

  /** Only the first failing check is reported. */
  lemma FirstFailureWins(name: string, email: string, password: string, confirm: string)
    ensures var fs := Failing(name, email, password, confirm);
      Validate(name, email, password, confirm) == if fs == [] then None else Some(fs[0])
  {
  }

  /** A password gets through exactly when every field is filled, the two
      entries agree, and it has at least six characters with a lowercase
      letter, an uppercase letter and a digit. */
  lemma AcceptedIffStrong(name: string, email: string, password: string, confirm: string)
    ensures Validate(name, email, password, confirm) == None <==>
      && name != "" && email != "" && password != "" && password == confirm
      && Text.Utf16Length(password) >= 6 && HasLower(password) && HasUpper(password) && HasDigit(password)
  {
  }

  /** The length check counts UTF-16 code units: five characters, two of
      them emoji, are seven units long and pass every check. */
  lemma AstralCharactersCountTwice()
    ensures Text.Utf16Length("Ab1\U{1F600}\U{1F600}") == 7
    ensures Validate("n", "e", "Ab1\U{1F600}\U{1F600}", "Ab1\U{1F600}\U{1F600}") == None
  {
    var p := "Ab1\U{1F600}\U{1F600}";
    assert p[1..] == "b1\U{1F600}\U{1F600}" && p[2..] == "1\U{1F600}\U{1F600}";
    assert p[3..] == "\U{1F600}\U{1F600}" && p[4..] == "\U{1F600}";
    assert Text.IsUpper(p[0]) && Text.IsLower(p[1]) && Text.IsDigit(p[2]);
  }

  const Created: string := "Account created successfully! Redirecting..."

  /** The form's `error` and `success` lines and its effects after one submission. */
  datatype Outcome = Outcome(error: Json, success: string, effects: seq<Effect>)

  function SubmitOutcome(name: string, email: string, password: string, confirm: string,
                         reply: AuthReply): (o: Outcome)
    ensures Validate(name, email, password, confirm).Some? ==>
      o == Outcome(Str(CheckMessage(Validate(name, email, password, confirm).value)), "", [])
    ensures Validate(name, email, password, confirm).None? ==>
      |o.effects| >= 1 && o.effects[0] == Call(Signup(name, email, password))
    ensures o.success != "" ==> o.error == Str("")
  {
    match Validate(name, email, password, confirm)
    case Some(c) => Outcome(Str(CheckMessage(c)), "", [])
    case None =>
      var call := [Call(Signup(name, email, password))];
      match reply
      case Threw => Outcome(Str(ErrorOccurred), "", call)
      case Resolved(result) =>
        if Nullish(result) then Outcome(Str(ErrorOccurred), "", call)
        else if Truthy(Prop(result, "success")) then
          Outcome(Str(""), Created, call + [Later(1500, NavigateLater("/subjects"))])
        else
          match FailureError(result, "Signup failed")
          case None => Outcome(Str(ErrorOccurred), "", call)
          case Some(e) => Outcome(e, "", call)
  }

  /** `signup` is called iff every check passes, and at most once. */
  lemma SignupCalledIffValid(name: string, email: string, password: string, confirm: string, reply: AuthReply)
    ensures var o := SubmitOutcome(name, email, password, confirm, reply);
      (Call(Signup(name, email, password)) in o.effects <==> Validate(name, email, password, confirm).None?)
      && |Requests(o.effects)| <= 1
  {
    var o := SubmitOutcome(name, email, password, confirm, reply);
    if Validate(name, email, password, confirm).None? {
      var call := [Call(Signup(name, email, password))];
      assert o.effects == call || o.effects == call + [Later(1500, NavigateLater("/subjects"))];
      RequestsAppend(call, [Later(1500, NavigateLater("/subjects"))]);
    }
  }

  /** A rejected sign-up reports the backend's first choice of words:
      listed errors, else its message, else the fixed fallback. */
  lemma RejectedShowsReason(name: string, email: string, password: string, confirm: string, result: Json)
    requires Validate(name, email, password, confirm).None?
    requires !Nullish(result) && !Truthy(Prop(result, "success")) && !ErrorsListed(Prop(result, "errors"))
    ensures SubmitOutcome(name, email, password, confirm, Resolved(result)).error
            == Or(Prop(result, "message"), Str("Signup failed"))
  {
  }

  class Form {
    var error: Json
    var success: string
    var loading: bool
    var log: seq<Effect>

    constructor ()
      ensures error == Str("") && success == "" && !loading && log == []
    {
      error := Str("");
      success := "";
      loading := false;
      log := [];
    }

    /** `handleSubmit`: clears both lines, validates in order, calls
        `signup` only when every check passes, and reports its answer;
        loading ends on every path. */
    method HandleSubmit(name: string, email: string, password: string, confirm: string, reply: AuthReply)
      modifies this
      ensures var o := SubmitOutcome(name, email, password, confirm, reply);
        error == o.error && success == o.success && log == old(log) + o.effects
      ensures !loading
    {
      error := Str("");
      success := "";
      loading := true;
      var check := Validate(name, email, password, confirm);
      if check.Some? {
        error := Str(CheckMessage(check.value));
        loading := false;
        return;
      }
      log := log + [Call(Signup(name, email, password))];
      if reply.Threw? || Nullish(reply.result) {
        error := Str(ErrorOccurred);
      } else if Truthy(Prop(reply.result, "success")) {
        success := Created;
        log := log + [Later(1500, NavigateLater("/subjects"))];
      } else {
        var failure := FailureError(reply.result, "Signup failed");
        error := if failure.Some? then failure.value else Str(ErrorOccurred);
      }
      loading := false;
    }
  }
}
