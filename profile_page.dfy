/** The profile page's side of the payment flow: reading the return query
    Stripe sends the customer back with, polling the backend until the
    premium subscription shows up, and the plan label. */
module ProfilePage {
  import opened Js
  import opened Optional
  import Text
  import Lists
  import opened Effects
  import opened PaymentApi
  import StripeCheckoutForm

  /** `+` reads as a space in a query component. */
  function DecodeComponent(s: string): (r: string)
    ensures |r| == |s|
    ensures forall i :: 0 <= i < |s| ==> r[i] == (if s[i] == '+' then ' ' else s[i])
  {
    seq(|s|, i requires 0 <= i < |s| => if s[i] == '+' then ' ' else s[i])
  }

  /** One `name=value` segment, cut at its first `=`; a segment without
      `=` is a name with an empty value. */
  function ParsePair(segment: string): (p: (string, string))
    ensures '=' !in segment ==> p == (DecodeComponent(segment), "")
    ensures '=' in segment ==>
      var i := Text.FirstIndex(segment, '=');
      p == (DecodeComponent(segment[..i]), DecodeComponent(segment[i + 1..]))
  {
    if '=' in segment then
      var i := Text.FirstIndex(segment, '=');
      (DecodeComponent(segment[..i]), DecodeComponent(segment[i + 1..]))
    else (DecodeComponent(segment), "")
  }

  /** A segment that yields a pair: only empty ones are skipped. */
  predicate NonEmptySegment(segment: string)
  {
    segment != ""
  }

  /** The pairs of the non-empty `&`-separated segments, in order: pair k
      is the parse of the k-th non-empty segment. */
  function ParseSegments(segments: seq<string>): (pairs: seq<(string, string)>)
    ensures var kept := Lists.Filter(segments, NonEmptySegment);
      |pairs| == |kept| && forall k :: 0 <= k < |pairs| ==> pairs[k] == ParsePair(kept[k])
  {
    if segments == [] then []
    else
      var rest := ParseSegments(segments[1..]);
      assert Lists.Filter(segments, NonEmptySegment)
          == (if segments[0] != "" then [segments[0]] else []) + Lists.Filter(segments[1..], NonEmptySegment);
      (if segments[0] == "" then [] else [ParsePair(segments[0])]) + rest
  }

  /** `new URLSearchParams(search)`: the leading `?` dropped, then the
      `name=value` pairs in order. */
  function ParseQuery(search: string): (pairs: seq<(string, string)>)
    ensures search == "" || search == "?" ==> pairs == []
    ensures search != "" && search[0] != '?' && '&' !in search ==> pairs == [ParsePair(search)]
  {
    assert '&' !in search ==> Text.Split(search, '&') == [search] by {
      if '&' !in search {
        Text.SplitNone(search, '&');
      }
    }
    Text.SplitNone("", '&');
    var body := if search != [] && search[0] == '?' then search[1..] else search;
    ParseSegments(Text.Split(body, '&'))
  }

  /** The value of the first pair named `name`, `None` standing for `null`. */
  function Lookup(pairs: seq<(string, string)>, name: string): (v: Option<string>)
    ensures v.Some? <==> exists i :: 0 <= i < |pairs| && pairs[i].0 == name
    ensures v.Some? ==> exists i :: 0 <= i < |pairs| && pairs[i] == (name, v.value)
                                    && forall j :: 0 <= j < i ==> pairs[j].0 != name
  {
    if pairs == [] then None
    else if pairs[0].0 == name then Some(pairs[0].1)
    else
      var rest := Lookup(pairs[1..], name);
      assert forall i :: 0 < i < |pairs| ==> pairs[i] == pairs[1..][i - 1];
      rest
  }

  /** `queryParams.get(name)` */
  function QueryGet(search: string, name: string): (v: Option<string>)
    ensures search == "" || search == "?" ==> v.None?
    ensures search != "" && search[0] != '?' && '&' !in search ==>
      (v.Some? <==> ParsePair(search).0 == name) && (v.Some? ==> v.value == ParsePair(search).1)
  {
    Lookup(ParseQuery(search), name)
  }

  /** Ids that survive the query unchanged: no pair separator, no plus
      sign, no percent escape and no fragment mark. */
  predicate UrlSafe(id: string)
  {
    '&' !in id && '+' !in id && '%' !in id && '#' !in id
  }

  lemma DecodePlain(s: string)
    requires '+' !in s
    ensures DecodeComponent(s) == s
  {
  }

  /** The return query's body splits into its two segments. */
  lemma ReturnSegments(id: string)
    requires UrlSafe(id)
    ensures ParseQuery(StripeCheckoutForm.ReturnSearch(Str(id)))
            == ParseSegments(["payment" + "=" + "success", "paymentId" + "=" + id])
  {
    var search := StripeCheckoutForm.ReturnSearch(Str(id));
    var first, second := "payment" + "=" + "success", "paymentId" + "=" + id;
    assert search[1..] == first + ['&'] + second;
    Text.SplitAtFirst(first, '&', second);
    Text.SplitNone(second, '&');
  }

  /** A `name=value` segment with plain components parses to that pair. */
  lemma PlainPair(name: string, value: string)
    requires '=' !in name && '+' !in name && '+' !in value
    ensures ParsePair(name + "=" + value) == (name, value)
  {
    var seg := name + "=" + value;
    assert seg[..|name|] == name && seg[|name|] == '=' && seg[|name| + 1..] == value;
    Text.FirstIndexAt(seg, '=', |name|);
    DecodePlain(name);
    DecodePlain(value);
  }

  lemma TwoSegments(a: string, b: string)
    requires a != "" && b != ""
    ensures ParseSegments([a, b]) == [ParsePair(a), ParsePair(b)]
  {
    assert [a, b][1..] == [b] && [b][1..] == [];
  }

  /** The return query parses to exactly its two pairs. */
  lemma ReturnPairs(id: string)
    requires UrlSafe(id)
    ensures ParseQuery(StripeCheckoutForm.ReturnSearch(Str(id))) == [("payment", "success"), ("paymentId", id)]
  {
    ReturnSegments(id);
    TwoSegments("payment" + "=" + "success", "paymentId" + "=" + id);
    PlainPair("payment", "success");
    PlainPair("paymentId", id);
  }

  /** The return query the checkout form builds reads back as
      `payment=success` and the very payment id it was built from. */
  lemma ReturnQueryRoundTrip(id: string)
    requires UrlSafe(id)
    ensures QueryGet(StripeCheckoutForm.ReturnSearch(Str(id)), "payment") == Some("success")
    ensures QueryGet(StripeCheckoutForm.ReturnSearch(Str(id)), "paymentId") == Some(id)
  {
    var pairs := [("payment", "success"), ("paymentId", id)];
    ReturnPairs(id);
    assert "payment" != "paymentId";
    assert pairs[1..] == [("paymentId", id)] && pairs[1..][1..] == [];
    assert Lookup(pairs[1..], "paymentId") == Some(id);
  }

  /** The query-trigger effect: the payment id to verify, when the query
      says `payment=success`, names a non-empty `paymentId` and no
      verification is running. */
  function VerificationTarget(search: string, isVerifying: bool): (target: Option<string>)
    ensures target.Some? <==>
      QueryGet(search, "payment") == Some("success") && QueryGet(search, "paymentId").Some?
      && QueryGet(search, "paymentId").value != "" && !isVerifying
    ensures target.Some? ==> QueryGet(search, "paymentId") == Some(target.value)
  {
    var status := QueryGet(search, "payment");
    var id := QueryGet(search, "paymentId");
    if status == Some("success") && id.Some? && id.value != "" && !isVerifying then id else None
  }

  /** Coming back from the checkout with a real payment id starts the
      verification of exactly that payment. */
  lemma ReturnStartsVerification(id: string)
    requires UrlSafe(id) && id != ""
    ensures VerificationTarget(StripeCheckoutForm.ReturnSearch(Str(id)), false) == Some(id)
    ensures VerificationTarget(StripeCheckoutForm.ReturnSearch(Str(id)), true) == None
  {
    ReturnQueryRoundTrip(id);
  }

  const MaxAttempts: nat := 3
  const RetryDelay: nat := 2000
  const VerifyingNotice: string := "Verifying your premium activation..."
  const ActivatedNotice: string := "🎉 Premium activated! Welcome aboard."
  const ProcessingNotice: string := "Payment is still processing. Please wait a moment."
  const FailedNotice: string := "Verification failed. Please refresh or contact support."

  /** How the polling ends: activation seen, attempts used up, or an
      exception out of a request. */
  datatype PollEnd = Confirmed | GaveUp | Crashed

  /** How each verify request's reply reads: request number `n` is
      answered by `replies(n)`. */
  function Answers(replies: nat -> Reply): (answers: nat -> Activation)
    ensures forall n: nat :: answers(n) == CheckActivation(replies(n))
  {
    (n: nat) => CheckActivation(replies(n))
  }

  /** The end of the polling that has already made `k` failed attempts,
      when request `n` reads as `answers(n)`. */
  function PollOutcome(k: nat, answers: nat -> Activation): (e: PollEnd)
    decreases MaxAttempts - k
    ensures e == Confirmed ==> exists n: nat :: k <= n < MaxAttempts && answers(n) == Activated
    ensures e == Crashed ==> exists n: nat :: k <= n < MaxAttempts && answers(n) == CheckThrew
    ensures e == GaveUp ==> forall n: nat :: k <= n < MaxAttempts ==> answers(n) == NotActivated
  {
    if k >= MaxAttempts then GaveUp
    else if answers(k) == Activated then Confirmed
    else if answers(k) == CheckThrew then Crashed
    else
      assert answers(k) == NotActivated;
      PollOutcome(k + 1, answers)
  }

  /** Requests and waits of that polling: one verify request per attempt,
      a user refresh after an activation, a two-second wait after each
      failed attempt but the last. */
  function PollTrace(k: nat, id: string, answers: nat -> Activation): (t: seq<Effect>)
    decreases MaxAttempts - k
    ensures k >= MaxAttempts ==> t == []
    ensures k < MaxAttempts ==> |t| >= 1 && t[0] == Call(VerifyPayment(Str(id)))
    ensures Call(RefreshUser) in t ==> t[|t| - 1] == Call(RefreshUser)
  {
    if k >= MaxAttempts then []
    else if answers(k) == Activated then [Call(VerifyPayment(Str(id))), Call(RefreshUser)]
    else if answers(k) == CheckThrew then [Call(VerifyPayment(Str(id)))]
    else FailedAttempt(k, id) + PollTrace(k + 1, id, answers)
  }

  /** Attempt `k` that saw no activation: its request, then the wait
      unless it was the last attempt. */
  function FailedAttempt(k: nat, id: string): (t: seq<Effect>)
  {
    [Call(VerifyPayment(Str(id)))] + (if k + 1 < MaxAttempts then [Sleep(RetryDelay)] else [])
  }

  /** The notice the loading toast turns into. */
  function FinalToast(e: PollEnd, refreshThrows: bool): (t: Toast)
    ensures t == Success(ActivatedNotice) <==> e == Confirmed && !refreshThrows
    ensures t == Info(ProcessingNotice) <==> e == GaveUp
    ensures t == Failure(FailedNotice) <==> e == Crashed || (e == Confirmed && refreshThrows)
  {
    match e
    case Confirmed => if refreshThrows then Failure(FailedNotice) else Success(ActivatedNotice)
    case GaveUp => Info(ProcessingNotice)
    case Crashed => Failure(FailedNotice)
  }

  predicate IsVerifyRequest(e: Effect) { e.Call? && e.request.VerifyPayment? }

  predicate IsSleep(e: Effect) { e.Sleep? }

  lemma FailedAttemptCounts(k: nat, id: string)
    ensures Lists.Count(FailedAttempt(k, id), IsVerifyRequest) == 1
    ensures Lists.Count(FailedAttempt(k, id), IsSleep) == if k + 1 < MaxAttempts then 1 else 0
  {
    var t := FailedAttempt(k, id);
    assert t[1..] == (if k + 1 < MaxAttempts then [Sleep(RetryDelay)] else []);
  }

  /** From `k` failed attempts on, at most `3 - k` verify requests are made
      and at most `2 - k` waits happen. */
  lemma {:induction false} PollBounds(k: nat, id: string, answers: nat -> Activation)
    requires k <= MaxAttempts
    ensures Lists.Count(PollTrace(k, id, answers), IsVerifyRequest) <= MaxAttempts - k
    ensures Lists.Count(PollTrace(k, id, answers), IsSleep) <= if k < MaxAttempts then MaxAttempts - k - 1 else 0
    decreases MaxAttempts - k
  {
    if k < MaxAttempts && answers(k) == NotActivated {
      PollBounds(k + 1, id, answers);
      FailedAttemptCounts(k, id);
      Lists.CountAppend(FailedAttempt(k, id), PollTrace(k + 1, id, answers), IsVerifyRequest);
      Lists.CountAppend(FailedAttempt(k, id), PollTrace(k + 1, id, answers), IsSleep);
    } else if k < MaxAttempts && answers(k) == Activated {
      assert PollTrace(k, id, answers) == [Call(VerifyPayment(Str(id))), Call(RefreshUser)];
    } else if k < MaxAttempts {
      assert PollTrace(k, id, answers) == [Call(VerifyPayment(Str(id)))];
    } else {
      assert PollTrace(k, id, answers) == [];
    }
  }

  /** At most three verify requests and at most two waits in all. */
  lemma AtMostThreeAttempts(id: string, answers: nat -> Activation)
    ensures Lists.Count(PollTrace(0, id, answers), IsVerifyRequest) <= 3
    ensures Lists.Count(PollTrace(0, id, answers), IsSleep) <= 2
  {
    PollBounds(0, id, answers);
  }

  /** The polling gives up exactly when none of the three replies reports
      an activation and none throws; it then made three requests with a
      two-second wait between each. */
  lemma GaveUpIffNoActivation(id: string, answers: nat -> Activation)
    ensures PollOutcome(0, answers) == GaveUp <==>
      forall n: nat :: n < MaxAttempts ==> answers(n) == NotActivated
    ensures PollOutcome(0, answers) == GaveUp ==>
      var v := Call(VerifyPayment(Str(id)));
      PollTrace(0, id, answers) == [v, Sleep(RetryDelay), v, Sleep(RetryDelay), v]
  {
    assert PollOutcome(3, answers) == GaveUp && PollTrace(3, id, answers) == [];
    if PollOutcome(0, answers) == GaveUp {
      assert answers(0) == NotActivated;
      assert PollOutcome(1, answers) == GaveUp;
      assert answers(1) == NotActivated;
      assert PollOutcome(2, answers) == GaveUp;
      assert answers(2) == NotActivated;
    }
  }

  /** The first reply that reports an activation ends the polling: it is
      confirmed after exactly that many requests, then the user is refreshed. */
  lemma StopsAtFirstActivation(id: string, answers: nat -> Activation, j: nat)
    requires j < MaxAttempts
    requires forall n: nat :: n < j ==> answers(n) == NotActivated
    requires answers(j) == Activated
    ensures PollOutcome(0, answers) == Confirmed
    ensures var t := PollTrace(0, id, answers);
      && Lists.Count(t, IsVerifyRequest) == j + 1
      && t[|t| - 1] == Call(RefreshUser)
  {
    StopsFrom(0, id, answers, j);
  }

  lemma {:induction false} StopsFrom(k: nat, id: string, answers: nat -> Activation, j: nat)
    requires k <= j < MaxAttempts
    requires forall n: nat :: k <= n < j ==> answers(n) == NotActivated
    requires answers(j) == Activated
    ensures PollOutcome(k, answers) == Confirmed
    ensures var t := PollTrace(k, id, answers);
      && t != []
      && Lists.Count(t, IsVerifyRequest) == j - k + 1
      && t[|t| - 1] == Call(RefreshUser)
    decreases j - k
  {
    var t := PollTrace(k, id, answers);
    if k == j {
      var head := [Call(VerifyPayment(Str(id)))];
      assert t == head + [Call(RefreshUser)];
      Lists.CountAppend(head, [Call(RefreshUser)], IsVerifyRequest);
    } else {
      StopsFrom(k + 1, id, answers, j);
      FailedAttemptCounts(k, id);
      Lists.CountAppend(FailedAttempt(k, id), PollTrace(k + 1, id, answers), IsVerifyRequest);
    }
  }

  /** `premiumPlan` with its first letter upper-cased, `'Standard'` when
      it is empty or missing. */
  function PlanLabel(premiumPlan: Json): (caption: string)
    requires Truthy(premiumPlan) ==> premiumPlan.Str?
    ensures !Truthy(premiumPlan) ==> caption == "Standard"
    ensures Truthy(premiumPlan) ==>
      |caption| == |premiumPlan.s| && caption[0] == Text.UpperChar(premiumPlan.s[0])
      && caption[1..] == premiumPlan.s[1..]
  {
    if Truthy(premiumPlan) then Text.Capitalize(premiumPlan.s) else "Standard"
  }

  class Page {
    var isVerifying: bool
    var log: seq<Effect>

    constructor ()
      ensures !isVerifying && log == []
    {
      isVerifying := false;
      log := [];
    }

    /** `verifyUserPayment`: a loading toast, then up to three verify
        requests with two-second waits between failures, stopping at the
        first activation (which refreshes the user) or at an exception; the
        toast then reports the outcome, and on every path verification ends
        and the query is dropped from the URL. `refreshThrows` says whether
        the user refresh fails. */
    method VerifyUserPayment(paymentId: string, replies: nat -> Reply, refreshThrows: bool)
      modifies this
      ensures !isVerifying
      ensures log == old(log) + [Notify(Loading(VerifyingNotice))] + PollTrace(0, paymentId, Answers(replies))
                     + [Notify(FinalToast(PollOutcome(0, Answers(replies)), refreshThrows)),
                        Navigate(Str("/profile"), Undefined, true)]
    {
      isVerifying := true;
      log := log + [Notify(Loading(VerifyingNotice))];
      var end := Poll(paymentId, replies);
      var notice: Toast;
      if end == Crashed || (end == Confirmed && refreshThrows) {
        notice := Failure(FailedNotice);
      } else if end == Confirmed {
        notice := Success(ActivatedNotice);
      } else {
        notice := Info(ProcessingNotice);
      }
      isVerifying := false;
      log := log + [Notify(notice), Navigate(Str("/profile"), Undefined, true)];
    }

    /** The attempts loop: up to three verify requests two seconds apart,
        stopping at the first activation (then refreshing the user) or at
        the first exception. */
    method Poll(paymentId: string, replies: nat -> Reply) returns (end: PollEnd)
      modifies this`log
      ensures end == PollOutcome(0, Answers(replies))
      ensures log == old(log) + PollTrace(0, paymentId, Answers(replies))
    {
      ghost var start := log;
      ghost var answers := Answers(replies);
      var attempts := 0;
      var verified := false;
      var threw := false;
      while attempts < MaxAttempts && !verified
        invariant attempts <= MaxAttempts
        invariant !threw
        invariant !verified ==> PollOutcome(0, answers) == PollOutcome(attempts, answers)
        invariant !verified ==> start + PollTrace(0, paymentId, answers) == log + PollTrace(attempts, paymentId, answers)
        invariant verified ==> PollOutcome(0, answers) == Confirmed
        invariant verified ==> log == start + PollTrace(0, paymentId, answers)
        decreases MaxAttempts - attempts, !verified
      {
        ghost var before := log;
        var request := Call(VerifyPayment(Str(paymentId)));
        log := log + [request];
        var check := CheckActivation(replies(attempts));
        assert check == answers(attempts);
        if check == CheckThrew {
          threw := true;
          assert PollTrace(attempts, paymentId, answers) == [request];
          break;
        } else if check == Activated {
          verified := true;
          log := log + [Call(RefreshUser)];
          assert PollTrace(attempts, paymentId, answers) == [request, Call(RefreshUser)];
          Lists.AppendAssociative(before, [request], [Call(RefreshUser)]);
        } else {
          ghost var failed := FailedAttempt(attempts, paymentId);
          assert PollTrace(attempts, paymentId, answers) == failed + PollTrace(attempts + 1, paymentId, answers);
          attempts := attempts + 1;
          if attempts < MaxAttempts {
            log := log + [Sleep(RetryDelay)];
            Lists.AppendAssociative(before, [request], [Sleep(RetryDelay)]);
          }
          assert log == before + failed;
          Lists.AppendAssociative(before, failed, PollTrace(attempts, paymentId, answers));
        }
      }
      if threw {
        end := Crashed;
      } else if verified {
        end := Confirmed;
      } else {
        end := GaveUp;
      }
    }

    /** The query-trigger effect, run when the location changes. */
    method OnLocation(search: string, replies: nat -> Reply, refreshThrows: bool)
      modifies this
      ensures VerificationTarget(search, old(isVerifying)).None? ==>
        isVerifying == old(isVerifying) && log == old(log)
      ensures VerificationTarget(search, old(isVerifying)).Some? ==>
        var id := VerificationTarget(search, old(isVerifying)).value;
        !isVerifying && log == old(log) + [Notify(Loading(VerifyingNotice))] + PollTrace(0, id, Answers(replies))
          + [Notify(FinalToast(PollOutcome(0, Answers(replies)), refreshThrows)), Navigate(Str("/profile"), Undefined, true)]
    {
      var target := VerificationTarget(search, isVerifying);
      if target.Some? {
        VerifyUserPayment(target.value, replies, refreshThrows);
      }
    }
  }
}
