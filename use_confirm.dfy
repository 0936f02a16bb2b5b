/** The confirmation-dialog hook: `confirm(options)` opens the dialog and
    returns a promise that the dialog's buttons settle, `close` cancels,
    `handleConfirm` accepts; the dialog's confirm button runs
    `handleConfirm` and then `close`. */
module UseConfirm {
  import opened Js
  import opened Optional

  const DefaultTitle: string := "Confirm Action"
  const DefaultMessage: string := "Are you sure you want to proceed?"
  const DefaultConfirmText: string := "Confirm"
  const DefaultCancelText: string := "Cancel"
  const DefaultVariant: string := "danger"

  /** Why a promise was rejected: the dialog was cancelled (`reject(false)`),
      or reading the options threw inside the promise executor. */
  datatype Reason = Declined | OptionsTypeError

  /** The state of one promise returned by `confirm`. A promise settles once:
      a later `resolve` or `reject` leaves it as it is. */
  datatype Settlement = Pending | Resolved(value: bool) | Rejected(reason: Reason)

  /** The first settlement wins. */
  function Settle(current: Settlement, next: Settlement): (r: Settlement)
    ensures current.Pending? ==> r == next
    ensures !current.Pending? ==> r == current
  {
    if current.Pending? then next else current
  }

  /** `options.key || fallback`. */
  function OptionOr(options: Json, key: string, fallback: string): (r: Json)
    ensures Truthy(Prop(options, key)) ==> r == Prop(options, key)
    ensures !Truthy(Prop(options, key)) ==> r == Str(fallback)
  {
    Or(Prop(options, key), Str(fallback))
  }

  /** `confirmState` plus the promises that `confirm` handed out. The stored
      `onConfirm`/`onCancel` callbacks are the resolve and reject of the
      promise numbered `handlers`. */
  class ConfirmHook {
    var isOpen: bool
    var title: Json
    var message: Json
    var confirmText: Json
    var cancelText: Json
    var variant: Json
    var handlers: Option<nat>
    var promises: seq<Settlement>

    ghost predicate Valid()
      reads this
    {
      handlers.Some? ==> handlers.value < |promises|
    }

    /** The initial `confirmState`: closed, empty title and message, no callbacks. */
    constructor ()
      ensures Valid()
      ensures !isOpen && title == Str("") && message == Str("")
      ensures confirmText == Str(DefaultConfirmText) && cancelText == Str(DefaultCancelText)
      ensures variant == Str(DefaultVariant)
      ensures handlers == None && promises == []
    {
      isOpen := false;
      title := Str("");
      message := Str("");
      confirmText := Str(DefaultConfirmText);
      cancelText := Str(DefaultCancelText);
      variant := Str(DefaultVariant);
      handlers := None;
      promises := [];
    }

    /** `confirm(options)`: a new pending promise whose callbacks replace the
        stored ones, and the dialog opened with each missing option
        defaulted. When `options` is `null` or `undefined`, reading
        `options.title` throws inside the executor: the new promise is
        rejected and the state is left alone. */
    method Confirm(options: Json) returns (p: nat)
      requires Valid()
      modifies this
      ensures Valid()
      ensures p == |old(promises)|
      ensures |promises| == p + 1 && promises[..p] == old(promises)
      ensures Nullish(options) ==> promises[p] == Rejected(OptionsTypeError)
      ensures Nullish(options) ==>
        isOpen == old(isOpen) && title == old(title) && message == old(message)
        && confirmText == old(confirmText) && cancelText == old(cancelText)
        && variant == old(variant) && handlers == old(handlers)
      ensures !Nullish(options) ==>
        promises[p] == Pending && isOpen && handlers == Some(p)
        && title == OptionOr(options, "title", DefaultTitle)
        && message == OptionOr(options, "message", DefaultMessage)
        && confirmText == OptionOr(options, "confirmText", DefaultConfirmText)
        && cancelText == OptionOr(options, "cancelText", DefaultCancelText)
        && variant == OptionOr(options, "variant", DefaultVariant)
    {
      p := |promises|;
      if Nullish(options) {
        promises := promises + [Rejected(OptionsTypeError)];
        return;
      }
      promises := promises + [Pending];
      isOpen := true;
      title := OptionOr(options, "title", DefaultTitle);
      message := OptionOr(options, "message", DefaultMessage);
      confirmText := OptionOr(options, "confirmText", DefaultConfirmText);
      cancelText := OptionOr(options, "cancelText", DefaultCancelText);
      variant := OptionOr(options, "variant", DefaultVariant);
      handlers := Some(p);
    }

    /** The stored `onConfirm`: close the dialog and `resolve(true)`. */
    method OnConfirm()
      requires Valid() && handlers.Some?
      modifies this`isOpen, this`promises
      ensures Valid()
      ensures !isOpen
      ensures promises == old(promises)[handlers.value := Settle(old(promises)[handlers.value], Resolved(true))]
    {
      isOpen := false;
      var i := handlers.value;
      promises := promises[i := Settle(promises[i], Resolved(true))];
    }

    /** The stored `onCancel`: close the dialog and `reject(false)`. */
    method OnCancel()
      requires Valid() && handlers.Some?
      modifies this`isOpen, this`promises
      ensures Valid()
      ensures !isOpen
      ensures promises == old(promises)[handlers.value := Settle(old(promises)[handlers.value], Rejected(Declined))]
    {
      isOpen := false;
      var i := handlers.value;
      promises := promises[i := Settle(promises[i], Rejected(Declined))];
    }

    /** `close`: run the stored `onCancel` if there is one; the dialog ends
        closed and every other field is kept. */
    method Close()
      requires Valid()
      modifies this`isOpen, this`promises
      ensures Valid()
      ensures !isOpen
      ensures handlers.None? ==> promises == old(promises)
      ensures handlers.Some? ==>
        promises == old(promises)[handlers.value := Settle(old(promises)[handlers.value], Rejected(Declined))]
    {
      if handlers.Some? {
        OnCancel();
      }
      isOpen := false;
    }

    /** `handleConfirm`: run the stored `onConfirm` if there is one; the
        dialog ends closed and every other field is kept. */
    method HandleConfirm()
      requires Valid()
      modifies this`isOpen, this`promises
      ensures Valid()
      ensures !isOpen
      ensures handlers.None? ==> promises == old(promises)
      ensures handlers.Some? ==>
        promises == old(promises)[handlers.value := Settle(old(promises)[handlers.value], Resolved(true))]
    {
      if handlers.Some? {
        OnConfirm();
      }
      isOpen := false;
    }

    /** The dialog's confirm button: `onConfirm()` then `onClose()`. The
        open promise resolves with `true`; the rejection that `close`
        attempts afterwards has no effect, and no other promise changes. */
    method ConfirmButton()
      requires Valid()
      modifies this`isOpen, this`promises
      ensures Valid()
      ensures !isOpen
      ensures |promises| == |old(promises)|
      ensures handlers.Some? && old(promises)[handlers.value].Pending? ==>
        promises[handlers.value] == Resolved(true)
      ensures forall i :: 0 <= i < |promises| && handlers != Some(i) ==> promises[i] == old(promises)[i]
      ensures forall i :: 0 <= i < |promises| && !old(promises)[i].Pending? ==> promises[i] == old(promises)[i]
    {
      HandleConfirm();
      Close();
    }
  }

  /** A dialog opened with an empty options object shows every default. */
  lemma EmptyOptionsUseDefaults()
    ensures OptionOr(Obj(map[]), "title", DefaultTitle) == Str(DefaultTitle)
    ensures OptionOr(Obj(map[]), "message", DefaultMessage) == Str(DefaultMessage)
    ensures OptionOr(Obj(map[]), "variant", DefaultVariant) == Str(DefaultVariant)
  {
  }

  /** Several settlement attempts in order, as `resolve` and `reject`
      calls on one promise: the first one that settles it wins. */
  function SettleAll(s: Settlement, attempts: seq<Settlement>): (r: Settlement)
    ensures !s.Pending? ==> r == s
    ensures s.Pending? && attempts != [] && !attempts[0].Pending? ==> r == attempts[0]
    decreases |attempts|
  {
    if attempts == [] then s else SettleAll(Settle(s, attempts[0]), attempts[1..])
  }
}
