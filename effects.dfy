/** What the components do to the outside world, recorded as data: toast
    notifications, route changes, timers, awaited delays, requests to the
    backend, scrolling and page reloads. Handlers append these to an
    effect log instead of performing them. */
module Effects {
  import Js

  /** A react-toastify notification and its message. */
  datatype Toast =
    | Info(message: string)
    | Success(message: string)
    | Failure(message: string)
    | Warning(message: string)
    | Loading(message: string)

  /** A callback handed to `setTimeout`. */
  datatype Task =
    | VerifyLater(paymentId: Js.Json)
    | ReloadLater
    | NavigateLater(to: string)

  /** A request to the backend, identified by what it asks for. */
  datatype Request =
    | GetSettings
    | StartPayment(planType: Js.Json, planName: Js.Json, amount: Js.Json, currency: Js.Json)
    | VerifyPayment(paymentId: Js.Json)
    | RefreshUser
    | Signup(name: string, email: string, password: string)
    | Login(email: string, password: string)
    | SaveSettings(settings: Js.Json)
    | RefetchSettings
    | CreatePlan(plan: Js.Json)
    | UpdatePlan(id: Js.Json, plan: Js.Json)
    | DeletePlan(id: Js.Json)
    | GetPlans
    | GetSubjects
    | CreateSubject(subject: Js.Json)
    | UpdateSubject(id: Js.Json, subject: Js.Json)
    | DeleteSubject(id: Js.Json)
    | ConfirmPayment(returnUrl: string)

  datatype Effect =
    | Notify(toast: Toast)
    | Navigate(to: Js.Json, state: Js.Json, replace: bool)
    | Later(delayMs: nat, task: Task)
    | Sleep(ms: nat)
    | Call(request: Request)
    | ScrollTo(top: int)
    | Reload
    | Redirect(url: string)

  /** The browser's history stack after an effect. A navigation pushes its
      target, or overwrites the current entry when it replaces; any other
      effect leaves the stack as it is. */
  function Visit(history: seq<Js.Json>, e: Effect): (h: seq<Js.Json>)
    requires history != []
    ensures h != [] && h[..|h| - 1] == (if e.Navigate? && !e.replace then history else history[..|history| - 1])
    ensures h[|h| - 1] == (if e.Navigate? then e.to else history[|history| - 1])
  {
    if !e.Navigate? then history
    else if e.replace then history[..|history| - 1] + [e.to]
    else history + [e.to]
  }

  /** The requests in an effect log, in order. */
  function Requests(log: seq<Effect>): (r: seq<Request>)
    ensures |r| <= |log|
    ensures forall i :: 0 <= i < |log| && log[i].Call? ==> log[i].request in r
  {
    if log == [] then []
    else (if log[0].Call? then [log[0].request] else []) + Requests(log[1..])
  }

  /** Requests of a concatenated log are the requests of each part. */
  lemma {:induction false} RequestsAppend(a: seq<Effect>, b: seq<Effect>)
    ensures Requests(a + b) == Requests(a) + Requests(b)
  {
    if a == [] {
      assert a + b == b;
    } else {
      assert (a + b)[1..] == a[1..] + b;
      RequestsAppend(a[1..], b);
    }
  }
}
