# A model of the Study Souq web client's logic

The Study Souq client is a React single-page application. It is a study
platform with subjects, pricing plans, Stripe checkout and an admin
dashboard. This project is a Dafny model of the logic under its JSX: the
statable decisions, builders, filters and state machines. Each module
follows one source file.

- **Shared modules.**
  - `Js` models JavaScript values (`Json`, truthiness, `||`, property
    access, object spread).
  - `Text` models the string operations the pages use (`trim`,
    `startsWith`, `toLowerCase`, `replace`, digits only, number
    printing), with ASCII character classes instead of regexes and
    ASCII-only case mapping.
  - `Lists` holds order-preserving filters and counting.
  - `Effects` records what a handler does to the outside world as a log
    of effects. Examples are requests, navigations, toasts, timers and
    scrolls.
  - `Optional` is an option type.
- **Settings.** `SettingsContext` models the site-wide settings provider:
  - the empty defaults;
  - the normaliser that makes a full settings record out of any API value;
  - the bounded retry of `fetchSettings`, against a server given as a
    function from request number to response;
  - `deepMerge`;
  - the `useSettings` fallback.
- **Payments.** `PaymentApi`, `PricingPage`, `PremiumPricingPage`,
  `StripeCheckoutForm` and `ProfilePage` model the payment lifecycle:
  - the sign-in and premium gates;
  - the checkout state machine of both pricing pages;
  - close-then-verify scheduling;
  - classification of verify replies;
  - the return URL the checkout form builds, and how the profile page
    parses it back;
  - the profile page's bounded polling loop.
- **Forms and pages.**
  - `SignupPage`, `LoginPage` and `AuthForms` model the sign-up and login
    forms.
  - `ContactUsPage`, `Footer`, `DocumentHead`, `HomePage`, `AboutPage`,
    `SupportPage`, `SampleContentPage` and `SubjectsPage` model what the
    public pages show for given settings.
  - `AdminSettingsPage`, `AdminPricingPage` and `AdminSubjectsPage`
    model the admin editors.
  - `UseConfirm` models the confirmation-dialog hook and its promises.

Where the source updates state in place, the model uses a class:
- the settings provider;
- the pricing pages' checkout state;
- the checkout, login and sign-up forms;
- the profile page;
- the document head;
- the footer handlers;
- the admin pages;
- the confirmation hook.

Each handler is a method whose `ensures` gives the new state and the
effects it appends to `log`. Those effects are tied to specification
functions, and the lemmas state the properties of those functions.

Network replies, Stripe's confirmation, the authentication calls and the
user's answer to a dialog are method parameters. Where a handler makes
several requests, they are a function from request number to reply.

Code and comments disagree in one place:
- The retry comment in `fetchSettings` calls the backoff exponential.
- The code waits `1000 * (retryCount + 1)` ms, which is 1 s and then 2 s.
- The model follows the code (`SettingsContext.RetrySchedule`).

## Model

| member | source | states |
|---|---|---|
| SettingsContext.ArrayOrEmpty | src/contexts/SettingsContext.jsx:164 | `Array.isArray(v) ? v : []`: an array's elements unchanged, anything else the empty list |
| SettingsContext.NormalizeTextLeaves | src/contexts/SettingsContext.jsx:135-219 | every text leaf of the normalised record is the API value when truthy and its fallback otherwise, so no leaf is ever `undefined` |
| SettingsContext.NormalizeReadsSource | src/contexts/SettingsContext.jsx:135-219 | each text leaf equals `source \|\| fallback` for the place the normaliser reads it from |
| SettingsContext.BrandingReadsSource | src/contexts/SettingsContext.jsx:136-142 | the branding leaves of a normalised branding section are `api.branding?.key \|\| fallback` |
| SettingsContext.ContactReadsSource | src/contexts/SettingsContext.jsx:143-156 | the contact leaves, including business hours and social links, are the API value or `''` |
| SettingsContext.HomepageReadsSource | src/contexts/SettingsContext.jsx:157-169 | the hero and call-to-action leaves are the API value or `''` |
| SettingsContext.AboutReadsSource | src/contexts/SettingsContext.jsx:170-177 | the about-page leaves are the API value or `''` |
| SettingsContext.FooterReadsSource | src/contexts/SettingsContext.jsx:178-183 | the footer tagline and copyright are the API value or `''` |
| SettingsContext.PoliciesReadsSource | src/contexts/SettingsContext.jsx:187-200 | each policy's content and last-updated date is the API value or `''` |
| SettingsContext.SupportReadsSource | src/contexts/SettingsContext.jsx:201-206 | the support title, description and response time are the API value or `''` |
| SettingsContext.PricingPageReadsSource | src/contexts/SettingsContext.jsx:207-213 | the pricing-page title and description are the API value or `''` |
| SettingsContext.SampleContentReadsSource | src/contexts/SettingsContext.jsx:214-218 | the sample-content title and description are the API value or `''` |
| SettingsContext.CurrencyFallback | src/contexts/SettingsContext.jsx:141 | the currency is `'EGP'` whenever the API currency is missing or falsy, the empty string included |
| SettingsContext.NormalizeListLeaves | src/contexts/SettingsContext.jsx:164-217 | every list leaf is the API array unchanged (even when empty) when it is an array, and `[]` otherwise |
| SettingsContext.DefaultsNormalizeEmpty | src/contexts/SettingsContext.jsx:7-91 | the defaults are exactly what the normaliser makes of an empty object |
| SettingsContext.DefaultTextLeaves | src/contexts/SettingsContext.jsx:7-91 | in the defaults every text leaf is `''`, except the currency, which is `'EGP'` |
| SettingsContext.DefaultListLeaves | src/contexts/SettingsContext.jsx:7-91 | in the defaults every list leaf is empty |
| SettingsContext.NormalizeLeavesStable | src/contexts/SettingsContext.jsx:135-219 | applying a leaf's fallback again to a normalised leaf changes nothing |
| SettingsContext.SettingsFromBody | src/contexts/SettingsContext.jsx:130-229 | a body without both a truthy `success` and a truthy `data` yields exactly the defaults |
| SettingsContext.Normalize | src/contexts/SettingsContext.jsx:135-219 | the normalised record always has a truthy currency |
| SettingsContext.Attempt | src/contexts/SettingsContext.jsx:105-125 | a non-ok status throws a plain `Error`; a rejected fetch throws its own error; a parsed non-null body is loaded |
| SettingsContext.Retryable | src/contexts/SettingsContext.jsx:234 | a thrown `Error` (the HTTP failure) or `SyntaxError` is never retryable; only network-type failures are |
| SettingsContext.RetriesAfter | src/contexts/SettingsContext.jsx:234-238 | a retry is taken only while retries remain, and each one uses one up |
| SettingsContext.FinalOutcome | src/contexts/SettingsContext.jsx:230-242 | a reported error leaves the default settings, and it is the error the last fetch threw |
| SettingsContext.FetchTrace | src/contexts/SettingsContext.jsx:112-117 | the trace has odd length and starts and ends with a settings request, as requests and back-off waits alternate |
| SettingsContext.FetchCountBound | src/contexts/SettingsContext.jsx:234-238 | a fetch from attempt `retryCount` makes at most one request more than the retries left |
| SettingsContext.AtMostThreeFetches | src/contexts/SettingsContext.jsx:234-238 | a fetch from the start makes at most three requests (`MAX_RETRIES` = 2) |
| SettingsContext.FetchTraceRequests | src/contexts/SettingsContext.jsx:112-117 | the recorded trace holds exactly as many requests as the fetch makes |
| SettingsContext.RetrySchedule | src/contexts/SettingsContext.jsx:236 | from the start the trace is one request, or a request, a 1000 ms wait and a request, or that plus a 2000 ms wait and a third request: the backoff is linear |
| SettingsContext.NotRetriedOnHttpError | src/contexts/SettingsContext.jsx:121-123 | a non-ok HTTP status is not retried: one request, an `Error` recorded, and the defaults stored |
| SettingsContext.FailureResetsToDefaults | src/contexts/SettingsContext.jsx:234-242 | after a final failure the error is set and the settings are the defaults, and the failure was not retryable or the retries were used up; a success stores the settings of some request's body |
| SettingsContext.SettingsProvider.constructor | src/contexts/SettingsContext.jsx:94-96 | the provider starts with the defaults, loading and no error |
| SettingsContext.SettingsProvider.FetchSettings | src/contexts/SettingsContext.jsx:102-246 | the retry loop ends with the settings and error of `FinalOutcome`, loading false, and the requests and waits of `FetchTrace` appended to the log |
| SettingsContext.DeepMerge | src/contexts/SettingsContext.jsx:249-285 | a falsy or non-object source returns the target; an array source, or an object source over a non-object target, gives a new object with the target's own fields; two objects merge to an object with both key sets |
| SettingsContext.DeepMergeFields | src/contexts/SettingsContext.jsx:256-281 | per key: an array or primitive source value (including `''` and `null`) overrides; object values recurse, or are copied when the target has no object there; target keys absent from the source are kept |
| SettingsContext.MergedValue | src/contexts/SettingsContext.jsx:260-277 | a non-object source value replaces the target's; an object source value gives an object that keeps every key of the source |
| SettingsContext.DeepMergeSelf | src/contexts/SettingsContext.jsx:249-285 | merging an object into itself gives it back |
| SettingsContext.DeepMergeIntoEmpty | src/contexts/SettingsContext.jsx:249-285 | merging an object into an empty object copies it |
| SettingsContext.UseSettings | src/contexts/SettingsContext.jsx:305-319 | outside a provider the defaults with loading false and no error, inside the provider's own value |
| Icons.IconFor | src/components/pages/HomePage.jsx:41 | a known icon name selects that icon, an unknown name the fallback, and the result is always the fallback or an icon of the library |
| PaymentApi.PaymentGate | src/components/pages/PricingPage.jsx:112-122 | the visitor is sent to log in exactly when the user or token is missing, and turned away exactly when a signed-in user is premium with any truthy plan |
| PaymentApi.ClassifyStart | src/components/pages/PricingPage.jsx:141-157 | a successful start yields `data.data`'s payment id and client secret; a refusal carries the backend message or `'Failed to start payment'`, which is never empty; a throw is its own case |
| PaymentApi.StartFailureMessage | src/components/pages/PricingPage.jsx:144-157 | the toast of a failed start is the backend's message, or the fixed crash notice when the call threw |
| PaymentApi.CheckActivation | src/components/pages/ProfilePage.jsx:60 | a reply reports an activation exactly when it is answered with `success` and `data.isPremium` both truthy |
| PaymentApi.ClassifyVerify | src/components/pages/PremiumPricingPage.jsx:177-187 | premium exactly on activation; pending exactly when not activated and `data.data.status` is `'pending'`; a throw is reported as such |
| PricingPage.CurrencyParameter | src/components/pages/PricingPage.jsx:110 | the `currency = 'USD'` default applies only to an omitted argument |
| PricingPage.RequestCurrency | src/components/pages/PricingPage.jsx:134-139 | the start body's currency is never falsy: the given one when truthy, `'USD'` otherwise |
| PricingPage.VerifyEffects | src/components/pages/PricingPage.jsx:185-193 | activation shows the success notice and schedules a reload after 1500 ms; pending shows the info notice; anything else shows nothing |
| PricingPage.VerifyReloadsIffActivated | src/components/pages/PricingPage.jsx:185-193 | a manual verification reloads the page exactly when the reply reports an activation, and a thrown error is swallowed |
| PricingPage.DurationText | src/components/pages/PricingPage.jsx:197-202 | 30 is `'/month'`, 365 `'/year'`, 730 `'/2 years'`, and any other value `'/' + n + ' days'` |
| PricingPage.DayCountLabel | src/components/pages/PricingPage.jsx:197-202 | a day count other than the three named ones never gets one of their labels |
| PricingPage.DurationTextInjective | src/components/pages/PricingPage.jsx:197-202 | different day counts never share a label |
| PricingPage.SelectedType | src/components/pages/PricingPage.jsx:350 | `selectedPlan?.planType`: `undefined` when nothing is selected |
| PricingPage.IsCurrentPlan | src/components/pages/PricingPage.jsx:350 | a plan is current only for a premium user |
| PricingPage.SubscribeDisabled | src/components/pages/PricingPage.jsx:350 | while not processing, the button is disabled exactly on the current plan, and the current plan is always disabled |
| PricingPage.DisabledIffIgnored | src/components/pages/PricingPage.jsx:347-350 | when nothing is being processed, the button is disabled exactly on the user's current plan; the current plan is always disabled |
| PricingPage.ClickCurrency | src/components/pages/PricingPage.jsx:330 | a click asks for the plan's own currency, else the branding currency |
| PricingPage.NoUsdFallback | src/components/pages/PricingPage.jsx:330 | with normalised or default settings a plan without a currency asks for the API currency or `'EGP'`, so the `'USD'` fallback never applies |
| PricingPage.CheckoutProps | src/components/pages/PricingPage.jsx:514-519 | the form gets the started payment's id, the selected plan's amount and a truthy currency |
| PricingPage.ReturnVerifiesStartedPayment | src/components/pages/PricingPage.jsx:514-519 | coming back from Stripe makes the profile page verify exactly the payment this page started |
| PricingPage.Page.constructor | src/components/pages/PricingPage.jsx:39-43 | the page starts not processing, with no selected plan, no checkout, an empty secret and no payment id |
| PricingPage.Page.FormProps | src/components/pages/PricingPage.jsx:514-519 | the overlay hands the form the props `CheckoutProps` gives for the current state |
| PricingPage.Page.HandlePayment | src/components/pages/PricingPage.jsx:110-158 | a missing user or token navigates to `/login` with `from: '/pricing'` and makes no start call; a premium user only gets a notice; otherwise one start request with `currency \|\| 'USD'`, then on success the reply's ids and an open checkout, on failure the state unchanged and the failure toast; never left processing |
| PricingPage.Page.Subscribe | src/components/pages/PricingPage.jsx:347-350 | a click on the user's current plan does nothing at all; otherwise it selects that plan type and sends its start request with the click currency |
| PricingPage.Page.CloseCheckout | src/components/pages/PricingPage.jsx:161-170 | hides the checkout and clears the secret and plan; exactly one verification after 2000 ms is scheduled exactly when a payment id is set |
| PricingPage.Page.VerifyPayment | src/components/pages/PricingPage.jsx:173-194 | one verify request, followed by the report `VerifyEffects` gives for the reply |
| PremiumPricingPage.StartRequest | src/components/pages/PremiumPricingPage.jsx:114-119 | the start body carries the plan's type, name and price and a truthy currency, the plan's own when it has one |
| PremiumPricingPage.VerifyEffects | src/components/pages/PremiumPricingPage.jsx:177-190 | three-way report: activation shows success and reloads after 1500 ms, pending shows info, anything else warns; a throw is silent |
| PremiumPricingPage.VerifyReportsEveryAnswer | src/components/pages/PremiumPricingPage.jsx:177-190 | every reply that does not throw gets a notice, and the page reloads exactly on activation |
| PremiumPricingPage.SelectDisabledOnlyWhileProcessing | src/components/pages/PremiumPricingPage.jsx:285 | nothing is disabled while not processing; while processing, only the plan with the selected id is disabled |
| PremiumPricingPage.SelectDisabled | src/components/pages/PremiumPricingPage.jsx:285 | a select button is disabled only while a payment is processing |
| PremiumPricingPage.CheckoutPropsAsWritten | src/components/pages/PremiumPricingPage.jsx:365-369 | the props as the page passes them: the plan's price and currency, and no payment id |
| PremiumPricingPage.CheckoutProps | src/components/pages/PremiumPricingPage.jsx:365-369 | the props with the started payment's id passed along |
| PremiumPricingPage.ReturnLosesPaymentId | src/components/pages/PremiumPricingPage.jsx:365-369 | as written, every return from Stripe carries `paymentId=undefined`, and the profile page sets out to verify a payment with id `"undefined"` |
| PremiumPricingPage.ReturnVerifiesStartedPayment | src/components/pages/PremiumPricingPage.jsx:365-369 | with the id passed, the return makes the profile page verify exactly the payment that was started |
| PremiumPricingPage.Page.constructor | src/components/pages/PremiumPricingPage.jsx:44-48 | the page starts with no plan, not processing, no checkout, an empty secret and no payment id |
| PremiumPricingPage.Page.FormProps | src/components/pages/PremiumPricingPage.jsx:365-369 | the overlay hands the form the props as written for the current state: the selected plan's price and no payment id |
| PremiumPricingPage.Page.StartPayment | src/components/pages/PremiumPricingPage.jsx:103-144 | a missing plan fails before any request; otherwise one start request, then the reply's ids and an open checkout, or the state unchanged and the failure toast; processing is false on every path |
| PremiumPricingPage.Page.HandleSelectPlan | src/components/pages/PremiumPricingPage.jsx:81-97 | a missing user or token navigates to `/login` with `from: '/pricing'`; a premium user only gets a notice; neither starts a payment; otherwise the plan is selected and processing ends; a missing plan only shows the crash toast; otherwise one start request is sent and a started payment opens the checkout with its id and secret, while any other reply leaves them and shows the failure message |
| PremiumPricingPage.Page.CloseCheckout | src/components/pages/PremiumPricingPage.jsx:149-160 | hides the checkout and clears the secret and plan; one verification after 2000 ms is scheduled exactly when a payment id is set |
| PremiumPricingPage.Page.VerifyPayment | src/components/pages/PremiumPricingPage.jsx:165-191 | one verify request, followed by the three-way report for its reply |
| StripeCheckoutForm.ReturnSearch | src/components/payment/StripeCheckoutForm.jsx:32 | the return query is the fixed `?payment=success&paymentId=` prefix followed by the payment id as a template prints it |
| StripeCheckoutForm.ReturnUrl | src/components/payment/StripeCheckoutForm.jsx:32 | the return URL is the origin, then `/profile`, then the return query |
| StripeCheckoutForm.ErrorMessage | src/components/payment/StripeCheckoutForm.jsx:41-47 | card and validation errors show the processor's message; every other error type shows `'An unexpected error occurred.'` |
| StripeCheckoutForm.Form.constructor | src/components/payment/StripeCheckoutForm.jsx:14-15 | the form starts with no message and not loading |
| StripeCheckoutForm.Form.HandleSubmit | src/components/payment/StripeCheckoutForm.jsx:17-50 | before Stripe and its elements load nothing changes; otherwise one confirmation with the return URL, after which a redirect leaves the form loading, and a rejection shows `ErrorMessage` and clears loading |
| ProfilePage.DecodeComponent | src/components/pages/ProfilePage.jsx:30-32 | a query component with each `+` read as a space, all other characters kept |
| ProfilePage.ParsePair | src/components/pages/ProfilePage.jsx:30-32 | a segment is cut at its first `=` into name and value; a segment without `=` is a name with an empty value |
| ProfilePage.ParseSegments | src/components/pages/ProfilePage.jsx:30-32 | pair k is the parse of the k-th non-empty segment, and there is one pair per non-empty segment |
| ProfilePage.Lookup | src/components/pages/ProfilePage.jsx:31-32 | a value is found exactly when some pair has that name, and it is the value of the first such pair |
| ProfilePage.ParseQuery | src/components/pages/ProfilePage.jsx:30-32 | an empty query or a bare `?` has no pairs; a query of one segment without `?` is that segment's pair |
| ProfilePage.QueryGet | src/components/pages/ProfilePage.jsx:31-32 | `get` on an empty query is null; on a one-segment query it is that segment's value exactly when the name matches |
| ProfilePage.DecodePlain | src/components/pages/ProfilePage.jsx:30-32 | a component without `+` decodes to itself |
| ProfilePage.ReturnSegments | src/components/pages/ProfilePage.jsx:30-32 | the return query's body splits into its `payment` and `paymentId` segments |
| ProfilePage.PlainPair | src/components/pages/ProfilePage.jsx:30-32 | `name=value` with plain components parses to exactly that pair |
| ProfilePage.TwoSegments | src/components/pages/ProfilePage.jsx:30-32 | two non-empty segments parse to their two pairs, in order |
| ProfilePage.ReturnPairs | src/components/pages/ProfilePage.jsx:30-32 | the return query parses to exactly `payment=success` and `paymentId=<id>` |
| ProfilePage.ReturnQueryRoundTrip | src/components/payment/StripeCheckoutForm.jsx:32 | for a URL-safe id, the query the checkout form builds reads back as `payment = 'success'` and the same id |
| ProfilePage.VerificationTarget | src/components/pages/ProfilePage.jsx:29-37 | verification starts exactly when the query says `payment=success`, has a non-empty `paymentId`, and no verification is running; the target is that id |
| ProfilePage.ReturnStartsVerification | src/components/pages/ProfilePage.jsx:29-37 | coming back from checkout with a real id starts its verification, unless one is already running |
| ProfilePage.Answers | src/components/pages/ProfilePage.jsx:55-60 | each verify reply is read by `CheckActivation` |
| ProfilePage.FinalToast | src/components/pages/ProfilePage.jsx:60-91 | success exactly when activation was seen and the user refresh succeeded; "still processing" exactly when the attempts ran out; failure on a throw |
| ProfilePage.PollOutcome | src/components/pages/ProfilePage.jsx:45-91 | the poll ends confirmed only if some remaining attempt activated, crashed only if some check threw, and gave up only if every remaining attempt answered not activated |
| ProfilePage.PollTrace | src/components/pages/ProfilePage.jsx:45-91 | a poll with attempts left starts with a verify request, and a user refresh, once made, is the last effect |
| ProfilePage.FailedAttemptCounts | src/components/pages/ProfilePage.jsx:69-74 | a failed attempt makes one verify request, and waits only when it is not the last |
| ProfilePage.PollBounds | src/components/pages/ProfilePage.jsx:45-75 | from `k` failed attempts on, at most `3 - k` requests and `2 - k` waits follow |
| ProfilePage.AtMostThreeAttempts | src/components/pages/ProfilePage.jsx:45-75 | the polling makes at most three verify requests and at most two waits |
| ProfilePage.GaveUpIffNoActivation | src/components/pages/ProfilePage.jsx:77-84 | the polling gives up exactly when none of the three replies reports an activation, after three requests with a 2000 ms wait between them |
| ProfilePage.StopsAtFirstActivation | src/components/pages/ProfilePage.jsx:60-68 | the first activating reply ends the polling, after exactly that many requests, with a user refresh last |
| ProfilePage.StopsFrom | src/components/pages/ProfilePage.jsx:45-68 | the same from any number of failed attempts on |
| ProfilePage.PlanLabel | src/components/pages/ProfilePage.jsx:345 | `premiumPlan` with its first character upper-cased and the rest kept, or `'Standard'` when it is empty or missing |
| ProfilePage.Page.constructor | src/components/pages/ProfilePage.jsx:14 | the page starts not verifying |
| ProfilePage.Page.VerifyUserPayment | src/components/pages/ProfilePage.jsx:39-97 | a loading toast, the polling trace, the final toast, and the URL replaced with `/profile` on every path; verifying is false afterwards |
| ProfilePage.Page.Poll | src/components/pages/ProfilePage.jsx:45-91 | the `while` loop ends as `PollOutcome` says and appends exactly `PollTrace`'s requests, waits and refresh |
| ProfilePage.Page.OnLocation | src/components/pages/ProfilePage.jsx:29-37 | a location without a verification target changes nothing; one with a target runs the whole verification for that id |
| SignupPage.CheckMessage | src/components/pages/SignupPage.jsx:28-63 | every check has a non-empty message |
| SignupPage.Failing | src/components/pages/SignupPage.jsx:28-63 | the failing checks, in the order the handler runs them, at most six; the length check counts UTF-16 code units, as `password.length` does |
| SignupPage.Validate | src/components/pages/SignupPage.jsx:28-63 | `'Please fill in all fields'` exactly when a field is empty; a mismatch is reported only when password and confirmation differ; the too-short message compares the UTF-16 length with 6 |
| SignupPage.FirstFailureWins | src/components/pages/SignupPage.jsx:28-63 | the reported check is the first failing one in the fixed order fields, match, length, lowercase, uppercase, digit |
| SignupPage.AcceptedIffStrong | src/components/pages/SignupPage.jsx:40-63 | a submission passes exactly when every field is filled, the two passwords match, and the password is at least 6 UTF-16 code units long with a lowercase letter, an uppercase letter and a digit |
| Text.Utf16Length | src/components/pages/SignupPage.jsx:40 | `length` of a JavaScript string: between one and two code units per character, and one per character when all lie in the Basic Multilingual Plane |
| SignupPage.AstralCharactersCountTwice | src/components/pages/SignupPage.jsx:40-43 | a password of five characters, two of them outside the Basic Multilingual Plane, is 7 code units long and passes the length check |
| SignupPage.SubmitOutcome | src/components/pages/SignupPage.jsx:21-86 | a failed check shows its message and calls nothing; a valid form calls `signup` first; a success line never comes with an error |
| SignupPage.SignupCalledIffValid | src/components/pages/SignupPage.jsx:66 | `signup` is called exactly when every check passes, and at most once |
| SignupPage.RejectedShowsReason | src/components/pages/SignupPage.jsx:74-79 | a refusal without listed errors shows `result.message`, else `'Signup failed'` |
| SignupPage.Form.constructor | src/components/pages/SignupPage.jsx:17-19 | the form starts with empty error and success lines, not loading |
| SignupPage.Form.HandleSubmit | src/components/pages/SignupPage.jsx:21-86 | the error and success lines and the log are those of `SubmitOutcome`, and loading is false on every exit |
| AuthForms.MessageText | src/components/pages/SignupPage.jsx:75 | a listed error's message as `join` prints it: its text, or empty when nullish |
| AuthForms.JoinedMessages | src/components/pages/SignupPage.jsx:75 | a single listed error shows its message alone |
| AuthForms.FailureError | src/components/pages/SignupPage.jsx:74-79 | without listed errors, the message or the fallback, never falsy; with listed errors, their messages joined by `', '`; it throws exactly when the listed errors cannot be mapped |
| AuthForms.SingleErrorShown | src/components/pages/LoginPage.jsx:36-40 | one listed error with a text message is shown verbatim, whatever the fallback |
| AuthForms.ErrorsListed | src/components/pages/SignupPage.jsx:75 | the error list is used only when `result.errors` is truthy |
| LoginPage.Destination | src/components/pages/LoginPage.jsx:28-34 | `state.from` when set; otherwise `/admin/dashboard` for an admin and `/subjects` for anyone else; there is no destination only when the result has no user; a destination is never falsy |
| LoginPage.BackToPricing | src/components/pages/LoginPage.jsx:28-32 | a visitor the pricing pages sent to log in goes back to `/pricing` |
| LoginPage.SubmitOutcome | src/components/pages/LoginPage.jsx:19-47 | `login` is always called first; a throw shows `'An error occurred. Please try again.'`; a success navigates to the destination; a refusal shows the message or `'Invalid email or password'` |
| LoginPage.NavigatesOnlyOnSuccess | src/components/pages/LoginPage.jsx:28-34 | a navigation happens exactly on a successful login with a destination, always replacing the entry and with no error |
| LoginPage.Form.constructor | src/components/pages/LoginPage.jsx:16-17 | the form starts with no error, not loading |
| LoginPage.Form.HandleSubmit | src/components/pages/LoginPage.jsx:19-47 | the error line and log are those of `SubmitOutcome`, and loading is false at the end |
| ContactUsPage.InstagramHref | src/components/pages/ContactUsPage.jsx:154-156 | a value starting with `http` is kept; otherwise the Instagram address followed by the handle without its first `@` |
| ContactUsPage.FacebookHref | src/components/pages/ContactUsPage.jsx:167-169 | a value starting with `http` is kept; otherwise the Facebook address followed by the page name |
| ContactUsPage.WhatsappHref | src/components/pages/ContactUsPage.jsx:180-182 | a value starting with `http` is kept; otherwise the `wa.me` address followed by the number's digits only |
| ContactUsPage.PrefixStartsWith | src/components/pages/ContactUsPage.jsx:154-182 | a link built on an `http` base still starts with `http` |
| ContactUsPage.HrefsIdempotent | src/components/pages/ContactUsPage.jsx:154-182 | every built social link is a full URL, so building it again changes nothing |
| ContactUsPage.InstagramAtOptional | src/components/pages/ContactUsPage.jsx:154-156 | a handle with or without its leading `@` links to the same profile |
| Text.RemoveSpaces | src/components/pages/ContactUsPage.jsx:107 | `replace(/\s/g, '')`: no whitespace is left, and the result is exactly the non-space characters in their original order |
| Text.DigitsOnly | src/components/pages/ContactUsPage.jsx:182 | `replace(/\D/g, '')`: only digits are left, and the result is exactly the digits in their original order |
| ContactUsPage.WhatsappDialsDigits | src/components/pages/ContactUsPage.jsx:180-182 | the chat link dials exactly the digits of the number, in their original order: the i-th dialled digit is the number's i-th digit, and no digit is dropped |
| ContactUsPage.PhoneHref | src/components/pages/ContactUsPage.jsx:105-110 | `tel:` followed by exactly the non-space characters of the phone, in their original order: no whitespace remains and no other character is dropped or moved |
| ContactUsPage.MailHref | src/components/pages/ContactUsPage.jsx:81-86 | `mailto:` followed by the support address |
| ContactUsPage.EntryOf | src/components/pages/ContactUsPage.jsx:58-64 | a truthy value is shown with its link; an empty one is replaced by its notice |
| ContactUsPage.SocialLinksOf | src/components/pages/ContactUsPage.jsx:154-192 | each network appears exactly when it is configured, with its built link; every link shown is a configured network's; the links follow the page's order Instagram, Facebook, WhatsApp, so each network appears at most once |
| ContactUsPage.NoSocialLinksIffNoneConfigured | src/components/pages/ContactUsPage.jsx:154-192 | no social link is shown exactly when none of the three networks is configured |
| ContactUsPage.ContactView | src/components/pages/ContactUsPage.jsx:35-192 | the description, address, email, phone and business hours are shown exactly when configured, with their `mailto:` and `tel:` links, and the socials are `SocialLinksOf` |
| ContactUsPage.DefaultsShowNotices | src/components/pages/ContactUsPage.jsx:35-192 | with nothing configured every notice is shown and no link |
| Footer.Tagline | src/components/Footer.jsx:100-105 | the footer tagline, else the branding tagline, else the notice |
| Footer.LinksOr | src/components/Footer.jsx:115-134 | configured links are read one for one as path and label, in order; no configured links gives the defaults |
| Footer.QuickLinks | src/components/Footer.jsx:115-134 | the configured quick links, or the five default routes |
| Footer.LegalLinks | src/components/Footer.jsx:142-160 | the configured legal links, or the four default routes |
| Footer.DefaultsListAllRoutes | src/components/Footer.jsx:128-158 | with the default settings both lists are their default routes |
| Footer.SocialRowOf | src/components/Footer.jsx:168-200 | "No social links" exactly when all three networks are empty; otherwise the contact page's links, never empty |
| Footer.Copyright | src/components/Footer.jsx:206-210 | a line with the year and the holder, `copyrightText \|\| platformName`, kept as the JSX child value itself (never falsy); the notice exactly when both are empty |
| Footer.ScrollTarget | src/components/Footer.jsx:23-36 | the target is `top + scrollY - 96` when that is not negative, and `0` otherwise |
| Footer.OtherPageNavigates | src/components/Footer.jsx:38-56 | a link to another page navigates there exactly once, handing over its section only when it has one, and never scrolls |
| Footer.SamePageScrolls | src/components/Footer.jsx:38-56 | on the link's own page there is no navigation: at most one scroll, to the section when present and to the top only when the section is missing and `fallbackTop` is set |
| Footer.FooterView.constructor | src/components/Footer.jsx:20-22 | the handlers start with an empty log |
| Footer.FooterView.ScrollWithOffset | src/components/Footer.jsx:23-36 | returns true exactly when the section exists, and then scrolls to `ScrollTarget` and nothing else |
| Footer.FooterView.HandleNavClick | src/components/Footer.jsx:38-56 | appends exactly the effects of the click decision |
| Footer.NavClickEffects | src/components/Footer.jsx:38-56 | at most one effect: a navigation that does not replace the route, or a scroll to a non-negative offset |
| Footer.LinkNavigation | src/components/Footer.jsx:118-158 | a router `Link` click navigates to the link's target without state, replacing the history entry exactly when the target is the current location |
| Footer.LinkHistory | src/components/Footer.jsx:118-158 | following a link shows its target and adds one history entry, except on the page already shown, where the history keeps its length |
| Footer.RepeatedClickAddsNoEntry | src/components/Footer.jsx:118-158 | clicking the same link twice leaves the history exactly as one click does |
| Footer.FooterView.FollowLink | src/components/Footer.jsx:118-158 | clicking a footer route link scrolls to the top and then makes the router's navigation for the current location |

| DocumentHead.Title | src/components/DocumentHead.jsx:14-26 | `name - tagline` when both are non-blank, the name alone when the tagline is blank, and the fixed placeholder when the name is blank |
| DocumentHead.TitleNeverBlank | src/components/DocumentHead.jsx:14-26 | the window title is never blank |
| DocumentHead.HrefText | src/components/DocumentHead.jsx:40-49 | a URL's text, or the placeholder image's data URI |
| DocumentHead.IconLink | src/components/DocumentHead.jsx:35-51 | the new link is an icon link (`rel` is `icon`): the favicon as `image/png` when not blank, the SVG placeholder otherwise |
| DocumentHead.ExactlyOneIcon | src/components/DocumentHead.jsx:32-51 | after an update the head holds exactly one icon link, the new one, in last place; links whose `rel` contains `icon` in any ASCII case are removed |
| DocumentHead.OtherLinksKept | src/components/DocumentHead.jsx:32-33 | an update keeps every link whose `rel` does not contain `icon` in any ASCII case |
| DocumentHead.UpdateIdempotent | src/components/DocumentHead.jsx:29-51 | updating twice with the same favicon is updating once |
| DocumentHead.RemoveIconLinks | src/components/DocumentHead.jsx:32-33 | the loop removes exactly the links matched by `link[rel*="icon"]`, compared ASCII case-insensitively as in an HTML document, and keeps the others in order |
| DocumentHead.IsIconLink | src/components/DocumentHead.jsx:32 | `link[rel*="icon"]`: the `rel` value contains `icon` after ASCII lower-casing |
| DocumentHead.IconMatchIgnoresCase | src/components/DocumentHead.jsx:32 | `Shortcut Icon` and `ICON` are icon links, `stylesheet` is not |
| DocumentHead.UpdatedLinks | src/components/DocumentHead.jsx:32-51 | at most one link more than before, the new icon link last, and no icon link before it |
| DocumentHead.Head.constructor | src/components/DocumentHead.jsx:7-8 | a head with the given links and no title yet |
| DocumentHead.Head.Update | src/components/DocumentHead.jsx:10-52 | the title becomes `Title` of the branding, and the links become the old ones without the (case-insensitively matched) icon links, plus the new icon link |
| UseConfirm.Settle | src/hooks/useConfirm.jsx:29-36 | a pending promise takes the settlement; a settled one keeps its own |
| UseConfirm.OptionOr | src/hooks/useConfirm.jsx:24-28 | the option when truthy, else its default |
| UseConfirm.ConfirmHook.constructor | src/hooks/useConfirm.jsx:9-18 | closed, empty title and message, the default button texts and variant, no callbacks and no promises |
| UseConfirm.ConfirmHook.Confirm | src/hooks/useConfirm.jsx:20-39 | one new promise; nullish options reject it with a `TypeError` and change nothing; otherwise it opens with each option or its default, and its callbacks replace the stored ones |
| UseConfirm.ConfirmHook.OnConfirm | src/hooks/useConfirm.jsx:29-32 | closes the dialog and resolves the stored promise with `true` if it is still pending |
| UseConfirm.ConfirmHook.OnCancel | src/hooks/useConfirm.jsx:33-36 | closes the dialog and rejects the stored promise with `false` if it is still pending |
| UseConfirm.ConfirmHook.Close | src/hooks/useConfirm.jsx:41-48 | runs the stored cancel callback if there is one; the dialog ends closed and every other field is kept |
| UseConfirm.ConfirmHook.HandleConfirm | src/hooks/useConfirm.jsx:50-55 | runs the stored confirm callback if there is one; the dialog ends closed |
| UseConfirm.ConfirmHook.ConfirmButton | src/components/common/ConfirmDialog.jsx:40-43 | confirm then close: a pending promise ends resolved with `true`, the later rejection has no effect, and no other promise changes |
| UseConfirm.EmptyOptionsUseDefaults | src/hooks/useConfirm.jsx:24-28 | a dialog opened with an empty options object shows the default title, message and variant |
| UseConfirm.SettleAll | src/hooks/useConfirm.jsx:29-36 | of several settlement attempts, the first one on a pending promise wins and later ones change nothing |
| AdminSettingsPage.WithDefaultColors | src/components/pages/admin/SettingsPage.jsx:99-107 | a branding without colours gets the four default colours and nothing else changes; existing colours are left alone; it throws only when the branding is nullish or cannot take a property |
| AdminSettingsPage.DefaultColorsIdempotent | src/components/pages/admin/SettingsPage.jsx:99-107 | defaulting the colours twice is defaulting them once |
| AdminSettingsPage.WithPolicyContent | src/components/pages/admin/SettingsPage.jsx:157-168 | only `policies[policy].content` changes: that policy's other fields, every other policy and every other section are kept |
| AdminSettingsPage.PolicyChangeWithSameContent | src/components/pages/admin/SettingsPage.jsx:157-168 | writing back the content a policy already has gives the settings back |
| AdminSettingsPage.PolicyLabel | src/components/pages/admin/SettingsPage.jsx:774 | the label has no leading or trailing whitespace |
| AdminSettingsPage.CamelCaseLabel | src/components/pages/admin/SettingsPage.jsx:774 | a lower-case word followed by a capitalised one is labelled with a space between them, as in `privacy Policy` |
| AdminSettingsPage.CamelCaseSpaced | src/components/pages/admin/SettingsPage.jsx:774 | a space is inserted before the capital letter only |
| AdminSettingsPage.WithCategories | src/components/pages/admin/SettingsPage.jsx:583-586 | the support categories are replaced and every other section and support field is kept |
| AdminSettingsPage.WithOwnCategories | src/components/pages/admin/SettingsPage.jsx:583-586 | storing the categories the settings already hold gives them back |
| AdminSettingsPage.AddCategory | src/components/pages/admin/SettingsPage.jsx:581-587 | `{title: 'New Category', description: ''}` is appended at the end, a missing list counting as empty; it throws exactly when the list is a truthy non-array, non-string value |
| AdminSettingsPage.RemoveCategory | src/components/pages/admin/SettingsPage.jsx:602-607 | exactly the category at the index is removed and the others keep their order |
| AdminSettingsPage.RemoveAddedCategory | src/components/pages/admin/SettingsPage.jsx:581-607 | removing the category just added gives the settings back |
| AdminSettingsPage.CategoryField.Key | src/components/pages/admin/SettingsPage.jsx:620-643 | a row's inputs edit `title` or `description` |
| AdminSettingsPage.EditCategory | src/components/pages/admin/SettingsPage.jsx:620-643 | only the typed field of the edited category changes; every other category and field is kept; it throws exactly when that element is not an object |
| AdminSettingsPage.Page.constructor | src/components/pages/admin/SettingsPage.jsx:14-87 | the page starts on the branding tab and the privacy policy, loading, not saving, with empty password fields |
| AdminSettingsPage.Page.FetchSettings | src/components/pages/admin/SettingsPage.jsx:91-115 | a successful load stores the settings with default colours; an unsuccessful reply changes nothing; a throw keeps the settings and shows the failure toast; loading ends false |
| AdminSettingsPage.Page.HandleSettingsUpdate | src/components/pages/admin/SettingsPage.jsx:117-141 | a successful save stores the server's copy, refetches the global settings, shows success and reloads only on the branding tab; a throw keeps the settings and shows the server's or the default message; saving ends false |
| AdminSettingsPage.Page.HandleProfileUpdate | src/components/pages/admin/SettingsPage.jsx:143-146 | only an info notice |
| AdminSettingsPage.Page.HandlePasswordUpdate | src/components/pages/admin/SettingsPage.jsx:148-155 | `'Passwords do not match'` exactly when the two differ, otherwise the not-implemented notice |
| AdminSettingsPage.Page.HandlePolicyChange | src/components/pages/admin/SettingsPage.jsx:157-168 | the settings become `WithPolicyContent` for the selected policy |
| AdminSettingsPage.Page.AddCategoryClicked | src/components/pages/admin/SettingsPage.jsx:581-587 | the settings become `AddCategory`'s result, or stay as they were when it throws |
| AdminSettingsPage.Page.RemoveCategoryClicked | src/components/pages/admin/SettingsPage.jsx:602-607 | the settings become `RemoveCategory`'s result |
| AdminSettingsPage.Page.CategoryEdited | src/components/pages/admin/SettingsPage.jsx:620-643 | the settings become `EditCategory`'s result, or stay as they were when it throws |
| AdminPricingPage.EditForm | src/components/pages/admin/PricingPage.jsx:84-100 | the form copies the plan; features default to `[]`, the price id to `''`, and `popular` is coerced to a boolean |
| AdminPricingPage.FormJson | src/components/pages/admin/PricingPage.jsx:13-25 | the object the calls send holds exactly the form's eleven keys, each with its field's value |
| AdminPricingPage.EditFormOfFormPlan | src/components/pages/admin/PricingPage.jsx:84-100 | a plan saved from a form with a feature list, a boolean `popular` and a price id gives that form back to the edit modal |
| AdminPricingPage.Page.constructor | src/components/pages/admin/PricingPage.jsx:9-26 | the page starts loading with no plans, no modal, no plan being edited, the default form and an empty feature input |
| AdminPricingPage.Page.FetchPlans | src/components/pages/admin/PricingPage.jsx:33-45 | a successful reply stores its plans, an unsuccessful one changes nothing, a throw shows the failure toast; loading ends false |
| AdminPricingPage.Page.AddFeature | src/components/pages/admin/PricingPage.jsx:120-125 | a non-blank input is appended trimmed and the input cleared; a blank input, or features that cannot be spread, change nothing |
| AdminPricingPage.Page.RemoveFeature | src/components/pages/admin/PricingPage.jsx:127-129 | exactly the feature at the index is removed and the others keep their order |
| AdminPricingPage.Page.OpenEditModal | src/components/pages/admin/PricingPage.jsx:84-100 | the plan is being edited, the form is `EditForm` of it, and the modal is open |
| AdminPricingPage.Page.ResetForm | src/components/pages/admin/PricingPage.jsx:102-118 | no plan being edited, the default form (monthly, `'all'`, price 0, `'PKR'`, 30 days, no features, active, order 0, no price id, not popular) and an empty feature input |
| AdminPricingPage.Page.OpenCreateModal | src/components/pages/admin/PricingPage.jsx:141 | the Add Plan button clears the edited plan, resets the form and the feature input, and opens the modal |
| AdminPricingPage.Page.HandleSubmit | src/components/pages/admin/PricingPage.jsx:47-63 | the plan being edited is updated by its `_id`, otherwise one is created, and either call sends the form data; success closes the modal, resets the form and refetches; a failure shows the server's or the default message |
| AdminPricingPage.Page.HandleDelete | src/components/pages/admin/PricingPage.jsx:65-82 | a cancelled dialog makes no call and shows no error; otherwise one delete, then success and a refetch, or the failure toast |
| AdminPricingPage.RemoveAddedFeature | src/components/pages/admin/PricingPage.jsx:120-129 | removing the feature just added gives the list back |
| AdminPricingPage.RemoveFeatureShifts | src/components/pages/admin/PricingPage.jsx:127-129 | features before the index keep their place and the later ones move up by one |
| AdminSubjectsPage.Matches | src/components/pages/admin/SubjectsPage.jsx:42-45 | a subject matches exactly when its lower-cased name or description contains the lower-cased query; it throws exactly when the name is not a string or the description is a non-string value |
| AdminSubjectsPage.SearchFilter | src/components/pages/admin/SubjectsPage.jsx:40-46 | the filter throws exactly when some subject's test throws |
| AdminSubjectsPage.SearchKeepsMatchesInOrder | src/components/pages/admin/SubjectsPage.jsx:40-47 | a search that does not throw keeps exactly the matching subjects, in the server's order |
| AdminSubjectsPage.FetchResult | src/components/pages/admin/SubjectsPage.jsx:35-55 | an unsuccessful reply changes nothing; a missing reply or `data` fails the load; an empty search lists `subjects \|\| []` as they are |
| AdminSubjectsPage.EmptySearchKeepsAll | src/components/pages/admin/SubjectsPage.jsx:40-41 | an empty search keeps every subject of the response |
| AdminSubjectsPage.SearchResult | src/components/pages/admin/SubjectsPage.jsx:40-47 | a non-empty search over an array lists exactly the matching subjects, or fails the load when a test throws |
| AdminSubjectsPage.Find | src/components/pages/admin/SubjectsPage.jsx:159 | the found option has the colour as its value; nothing is found exactly when no option has it |
| AdminSubjectsPage.GradientFor | src/components/pages/admin/SubjectsPage.jsx:159 | the gradient of the option whose value is the colour, else the cyan default |
| AdminSubjectsPage.GradientOfEachOption | src/components/pages/admin/SubjectsPage.jsx:23-29 | each option's colour gets that option's own gradient |
| AdminSubjectsPage.EditForm | src/components/pages/admin/SubjectsPage.jsx:94-103 | the name is copied; a truthy description and colour are copied, otherwise they default to `''` and `'#06b5cc'`; `isActive` is `true` for an `'active'` status and otherwise the subject's own `isActive`, so it is truthy exactly when the subject shows as active |
| AdminSubjectsPage.FormJson | src/components/pages/admin/SubjectsPage.jsx:16-21 | the object the calls send holds exactly the form's four keys, each with its field's value |
| AdminSubjectsPage.EditFormOfFormSubject | src/components/pages/admin/SubjectsPage.jsx:94-103 | a subject saved from a form with a description and a colour gives that form back to the edit modal |
| AdminSubjectsPage.Page.constructor | src/components/pages/admin/SubjectsPage.jsx:9-21 | the page starts loading, with no subjects, an empty search, no modal, no subject being edited and the empty form |
| AdminSubjectsPage.Page.FetchSubjects | src/components/pages/admin/SubjectsPage.jsx:35-55 | the list becomes `FetchResult`'s subjects, stays when the reply is unsuccessful, and a failure keeps it and shows the toast; loading ends false |
| AdminSubjectsPage.Page.OpenEditModal | src/components/pages/admin/SubjectsPage.jsx:94-103 | the subject is being edited, the form is `EditForm` of it, and the modal is open |
| AdminSubjectsPage.Page.ResetForm | src/components/pages/admin/SubjectsPage.jsx:105-113 | no subject being edited and the empty form: no name or description, cyan, active |
| AdminSubjectsPage.Page.OpenCreateModal | src/components/pages/admin/SubjectsPage.jsx:125 | the Add Subject button clears the edited subject, empties the form and opens the modal |
| AdminSubjectsPage.Page.HandleSubmit | src/components/pages/admin/SubjectsPage.jsx:56-72 | the subject being edited is updated by its `_id`, otherwise one is created, and either call sends the form data; success closes the modal, resets the form and refetches; a failure shows the server's or the default message |
| AdminSubjectsPage.Page.HandleDelete | src/components/pages/admin/SubjectsPage.jsx:74-91 | a cancelled dialog makes no call and shows no error; otherwise one delete, then success and a refetch, or the failure toast |
| SubjectsPage.Lookup | src/components/pages/SubjectsPage.jsx:12-16 | a gradient exactly for the three known keys, never empty |
| SubjectsPage.Gradient | src/components/pages/SubjectsPage.jsx:36 | the slug's gradient, else the lower-cased level's, else the default; it throws exactly when the level is consulted and is neither nullish nor a string |
| SubjectsPage.LevelCaseInsensitive | src/components/pages/SubjectsPage.jsx:36 | a level and its lower-cased form select the same gradient |
| SubjectsPage.Transform | src/components/pages/SubjectsPage.jsx:26-39 | the reshaped subject has id `slug \|\| _id`, the description or `''`, the selected gradient and the other fields copied; it throws exactly on a nullish subject or a failing gradient |
| SubjectsPage.TransformEach | src/components/pages/SubjectsPage.jsx:26-39 | the list keeps its length and order, each element reshaped, unless some element throws |
| SubjectsPage.Reshaped | src/components/pages/SubjectsPage.jsx:26-39 | a reshaped subject has an id exactly when the source has a slug or an `_id`, a text gradient and a description |
| SubjectsPage.FetchOutcome | src/components/pages/SubjectsPage.jsx:19-48 | a refusal shows `result.message` or `'Failed to load subjects'`; a thrown call, a nullish reply, a `data` that is not an array and a subject whose reshaping throws all show the fixed message; otherwise a success lists the reshaped subjects; an error shown is never empty |
| SubjectsPage.LinkTarget | src/components/pages/SubjectsPage.jsx:119-121 | a card links under `/subjects/` |
| SubjectsPage.LinkUsesId | src/components/pages/SubjectsPage.jsx:119-121 | each card links to `/subjects/` followed by the id the subject got when it was reshaped (`slug \|\| _id`, line 28) |
| SubjectsPage.Page.constructor | src/components/pages/SubjectsPage.jsx:8-10 | the page starts loading, with no subjects and no error |
| SubjectsPage.Page.View | src/components/pages/SubjectsPage.jsx:54-121 | loading first, then the error, then the empty notice exactly when there are no subjects, then one card link per subject |
| SubjectsPage.Page.FetchSubjects | src/components/pages/SubjectsPage.jsx:19-48 | loading ends false; a success stores the reshaped list and clears the error; a failure keeps the list and stores the error |
| SubjectsPage.FailedFetchShowsError | src/components/pages/SubjectsPage.jsx:40-45 | a failed fetch always ends on the error screen with its message |
| HomePage.Hero | src/components/pages/HomePage.jsx:83-138 | each hero text and the image are the configured value, or their fixed fallback when empty |
| HomePage.HeroNeverEmpty | src/components/pages/HomePage.jsx:83-138 | the hero never shows an empty text |
| HomePage.FeatureOf | src/components/pages/HomePage.jsx:41-47 | the named icon or FileText; title and description default to `''` and the colour to `'#06b5cc'` |
| HomePage.Cards | src/components/pages/HomePage.jsx:40-47 | one card per configured feature, in order |
| HomePage.Features | src/components/pages/HomePage.jsx:40-48 | only cards with a title or a description are shown, never more than configured |
| HomePage.HasContent | src/components/pages/HomePage.jsx:48 | a feature whose title and description are both empty is not shown |
| HomePage.FeaturesKeptInOrder | src/components/pages/HomePage.jsx:48 | the shown cards are the cards of exactly the configured features with a title or a description, in order |
| HomePage.NoFeaturesIffNoneConfigured | src/components/pages/HomePage.jsx:196-222 | "No features available" appears exactly when no configured feature has a title or a description |
| HomePage.NoFeaturesWithoutArray | src/components/pages/HomePage.jsx:40 | settings loaded from data without a features array show no feature |
| HomePage.HashSection | src/components/pages/HomePage.jsx:16 | no hash gives `null`; otherwise the hash without its `#` |
| HomePage.SectionToScroll | src/components/pages/HomePage.jsx:15-17 | the state's target section, else the hash's section, else none |
| HomePage.EntryEffects | src/components/pages/HomePage.jsx:14-36 | nothing without a section; otherwise, after the next frame, a scroll to the section's offset position when the section exists, and a replacing navigation to the same path exactly when the target came from the navigation state |
| HomePage.HashEntryScrollsLikeFooterLink | src/components/pages/HomePage.jsx:14-36 | arriving at `#id` on the same path scrolls exactly as a same-page footer link to `id` does |
| HomePage.FooterHandOffScrolls | src/components/pages/HomePage.jsx:14-36 | a footer link from another page hands its section to the home page, which clears the state with a replacing navigation and scrolls to the section |
| HomePage.BareHashScrollsNowhere | src/components/pages/HomePage.jsx:16-19 | a bare `#` names no section, so nothing is scrolled to |
| AboutPage.CardOf | src/components/pages/AboutPage.jsx:10-12 | the card keeps every field of an object card, with `IconComponent` set to the named icon or BookOpen |
| AboutPage.AllCards | src/components/pages/AboutPage.jsx:10-12 | one card per configured card, in order |
| AboutPage.FeatureCards | src/components/pages/AboutPage.jsx:10-13 | only cards with a title or a description are shown, never more than configured |
| AboutPage.HasContent | src/components/pages/AboutPage.jsx:13 | a card shown has a title or a description field |
| AboutPage.FeatureCardsKeptInOrder | src/components/pages/AboutPage.jsx:13 | the shown cards are exactly the configured cards with content, in order |
| AboutPage.ObjectCardContent | src/components/pages/AboutPage.jsx:13 | an object card has content exactly when its own title or description is set |
| AboutPage.NoCardsIffNoneWithContent | src/components/pages/AboutPage.jsx:94-116 | the empty-cards notice appears exactly when no card has content |
| AboutPage.AboutView | src/components/pages/AboutPage.jsx:29-129 | the five sections are each shown when configured or replaced by their notice, the cards notice appears exactly when no card is shown, and the call to action names the platform or shows the missing-name notice |
| AboutPage.DefaultsShowNotices | src/components/pages/AboutPage.jsx:29-129 | with the default settings every section shows its notice, there are no cards, and the call to action shows the missing-name notice |
| SupportPage.ValidCategories | src/components/pages/SupportPage.jsx:8 | only configured categories with a title are listed |
| SupportPage.Titled | src/components/pages/SupportPage.jsx:8 | a listed category is an object with a `title` field |
| SupportPage.RowOf | src/components/pages/SupportPage.jsx:45-47 | a row shows the title, and the description only when it is set |
| SupportPage.SupportView | src/components/pages/SupportPage.jsx:19-47 | the header appears exactly when the title or description is set; the section appears exactly when some category is listed; one row per listed category |
| SupportPage.HeaderNeverEmpty | src/components/pages/SupportPage.jsx:19-30 | a shown header always shows something |
| SupportPage.ValidCategoriesKeptInOrder | src/components/pages/SupportPage.jsx:8 | the listed categories are exactly the configured ones with a title, in order |
| SupportPage.SectionIffSomeTitled | src/components/pages/SupportPage.jsx:36 | the section is rendered exactly when some configured category has a title |
| SupportPage.DefaultsShowNothing | src/components/pages/SupportPage.jsx:7-36 | with the default settings there is neither header nor section |
| SampleContentPage.TopicSuffix | src/components/pages/SampleContentPage.jsx:41 | empty exactly when the topic is not set, else it starts with `:` |
| SampleContentPage.Heading | src/components/pages/SampleContentPage.jsx:41 | `Question <i+1>`, followed by `: <topic>` when the topic is set |
| SampleContentPage.DigitsEndAtColon | src/components/pages/SampleContentPage.jsx:41 | where the number ends in a heading is unambiguous |
| SampleContentPage.HeadingsDistinct | src/components/pages/SampleContentPage.jsx:41 | two headings are equal only for the same position, whatever the topics |
| SampleContentPage.CardOf | src/components/pages/SampleContentPage.jsx:41-57 | the heading of its position; the question and solution only when set |
| SampleContentPage.SampleView | src/components/pages/SampleContentPage.jsx:23-64 | title and description only when set; the "No sample content available" notice exactly when there are no samples, otherwise one card per sample in order |
| SampleContentPage.CardHeadingsDistinct | src/components/pages/SampleContentPage.jsx:41 | every card on the page has its own heading |

## Left out

- Network, Stripe and authentication calls are parameters of the methods that make them. These are `fetch`, `axios`, the admin and public services, `login`, `signup`, `refreshUser` and `stripe.confirmPayment`. Several replies are a function from request number to reply. The transport, the 10 s abort and `AbortController` are not modelled.
- Timers, reloads and scrolling are recorded as effects with their delays, with no notion of elapsed time. The DOM lookups are `getElementById`, `getBoundingClientRect` and `requestAnimationFrame`; the model takes their results as parameters.
- React rendering, animation, portals and toasts are not modelled. A toast is a recorded notice; a view is a datatype of what is shown.
- React's batching of state updates and interleaved async handlers are not modelled. Each handler runs to completion on a single-threaded state.
- Numbers are mathematical integers. `formatPrice`, `formatDate`, `parseFloat` and locale formatting are not modelled.
- Objects are finite maps. Key order is not modelled.
- Property access on `null`, `undefined` or a primitive reads `undefined` instead of throwing. This includes keys inherited from `Object.prototype`, such as `constructor` in the subjects page's gradient map. A nullish list element is therefore read as a fieldless object where the source would throw. This covers HomePage.FeatureOf, AboutPage.CardOf, SupportPage.Titled, SampleContentPage.CardOf and Footer.LinksOr.
- ProfilePage.DecodeComponent: query parsing handles only `+` as a space, not percent-decoding. It is exact for the ids the checkout return URL carries (`ProfilePage.UrlSafe`).
- Icons are names from a fixed library, given as a set of names. The icon components themselves are not modelled.
- Sample questions and solutions are HTML. The model treats them as opaque values.
- The placeholder favicon's SVG text is not modelled. The model uses a named placeholder image and gives its `href` as a fixed data URI.
- These files have no statable logic and are not part of this model:
  - `src/App.jsx`;
  - `LoadingScreen.jsx`, `Logo.jsx`, `ErrorBoundary.jsx` and `Alert.jsx`;
  - `TermsOfServicePage.jsx`;
  - `logger.js` and `chatService.js`.

  `ConfirmDialog.jsx` is covered only by its confirm-then-close order.
- ProfilePage.PlanLabel: requires a truthy plan to be a string. The source calls `charAt` on it, which throws for other values.
- ContactUsPage.SocialLinksOf: requires configured social values to be strings or falsy. The source calls `startsWith` and `replace` on them. The same holds for ContactUsPage.ContactView, which also requires the phone to be a string or falsy.
- Footer.SocialRowOf: requires configured social values to be strings or falsy, as on the contact page.
- DocumentHead.Title: requires the platform name and tagline to be strings or falsy, since the source trims them. The same requirement on the favicon applies to DocumentHead.IconLink and DocumentHead.Head.Update.
- AdminSettingsPage.RemoveCategory: requires an array of categories and an index inside it. Only rendered rows have a remove button. The same holds for AdminSettingsPage.Page.RemoveCategoryClicked.
- AdminSettingsPage.EditCategory: builds a new category object. The source mutates the shared category object in place, through a shallow copy of the array. So the source also changes the object the previous state still refers to; the model does not capture this aliasing. The same holds for AdminSettingsPage.Page.CategoryEdited.
- AdminSettingsPage.WithDefaultColors: an array-valued `branding` without colours is treated as throwing. In the source the colours would be set as a property of the array.
- AdminSettingsPage.EditCategory: an array-valued category is treated as throwing. In the source the title or description would be set as a property of the array. The same holds for AdminSettingsPage.Page.CategoryEdited.
- AuthForms.JoinedMessages: its contract states the single-message case. The general `', '` join is given by its definition and used through AuthForms.FailureError.
- PricingPage.Page.Subscribe: its contract states the selected plan type and the start request. The rest of the click is stated by PricingPage.Page.HandlePayment, which it runs.
- AdminSettingsPage.PolicyLabel: its own contract states only that the label is trimmed. The space before each capital letter is stated by AdminSettingsPage.CamelCaseLabel, for a lower-case word followed by a capitalised one.
- Case mapping (`toLowerCase`, `toUpperCase`) changes only the ASCII letters A to Z (`Text.ToLower`, `Text.Capitalize`). JavaScript maps every Unicode letter, so subject names, levels and plan names with accented or non-Latin capitals can differ. This affects AdminSubjectsPage.Matches, SubjectsPage.Gradient and ProfilePage.PlanLabel.
- AuthForms.ErrorsListed: a validation-error object counts as a list only when its `length` is a positive number. JavaScript would also accept a numeric string or other truthy `length` here.
- Footer.FooterView.FollowLink: the link's `to` is compared with the current location as written. The router first resolves a relative `to` against the current route; the model does not, which matters only for configured links that are not absolute paths.
- Footer.FooterView.HandleNavClick: Footer.jsx defines `handleNavClick` but attaches it to no element. The model states the handler as the file defines it; no click in the rendered footer reaches it.
- A logged request keeps the arguments of its call. The exception is the Stripe confirmation, which keeps only its return URL and not the Stripe elements handle.

## Findings

| source | as written | input that shows it | evidently intended | confidence | as-written member | corrected member |
|---|---|---|---|---|---|---|
| src/components/pages/PremiumPricingPage.jsx:365-369 | the checkout form is given the amount and currency but no `paymentId`, so its return URL ends in `paymentId=undefined` | any started payment, e.g. one whose id is `pi_1` | pass the started payment's id, as the public pricing page does, so the profile page verifies that payment | not executed | PremiumPricingPage.ReturnLosesPaymentId | PremiumPricingPage.ReturnVerifiesStartedPayment |
