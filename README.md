# Zenphony Audio site: a verified model of its decision logic

This project models the parts of the Zenphony Audio web site (a Next.js
application backed by Stripe and Supabase) that decide something, and
proves properties of them:

- **Entitlements from payments.**
  - The checkout-verify route turns a paid Stripe checkout session into a
    profile update. A top-up adds to `extra_minutes`; any other purchase
    activates a subscription.
  - The Stripe webhook turns checkout-completed and subscription
    updated/deleted events into profile updates.
  - Both act on a profiles table, `Profiles.ProfilesTable`, a class holding
    a map from id to `Profile` rows.
- **The plugin's one-time token exchange.** A class holds the token table.
  One request validates the token format, refuses unknown tokens, deletes
  expired ones, refuses used ones and marks the token used. It then answers
  with a minutes summary.
- **The plan catalog.** The checkout API validates the plan id, answers the
  free plan directly and requests a subscription session for paid plans.
  The checkout page picks a plan from the URL and handles the API's answer.
- **The auth callback.** A query string and the code-exchange result give a
  redirect URL.
- **Page rules:**
  - navigation highlighting and naming
  - password checks and provider-error wording on the sign-up, login,
    get-started and reset-password pages
  - the reset page's three-valued session flag
  - the get-started carousel
  - the usage card on the profile page
- **Cross-file facts** in `PlanVocabulary`. These are places where one file
  writes something another file does not read the same way.

Everything external is an input of the model:

- Stripe's retrieve/create/constructEvent calls.
- Supabase queries and `listUsers`.
- The clock, the `encodeURIComponent` function, and whether a read or
  write fails.

Each module corresponds to one source file:

| Module | Source file |
|---|---|
| `Wrappers` | `Option` (Dafny helper) |
| `Text` | JS string helpers: prefix, substring, `split(c)[0]`, truthiness and `a \|\| b` |
| `Profiles` | `lib/supabase/database.types.ts`: the row, a Supabase partial update, `.single()` and the user lookup |
| `CheckoutVerify` | `app/api/checkout/verify/route.ts` |
| `StripeWebhook` | `app/api/stripe-webhook/route.ts` |
| `PluginExchange` | `app/api/plugin/auth/exchange-token/route.ts` |
| `CheckoutApi` | `app/api/checkout/route.ts` |
| `CheckoutPage` | `app/checkout/page.tsx` |
| `ProfilePage` | `app/profile/page.tsx` |
| `AuthCallback` | `app/auth/callback/route.ts` |
| `Navigation` | `components/navigation.tsx` |
| `SignupPage` | `app/signup/page.tsx` |
| `ResetPassword` | `app/reset-password/page.tsx` |
| `LoginPage` | `app/login/page.tsx` |
| `GetStarted` | `app/get-started/page.tsx` |
| `PlanVocabulary` | facts across the files above |

The `Profile` row has the columns of `lib/supabase/database.types.ts:1-19`.
It also has the `topup_minutes` and `api_key` columns that the plugin route
selects but that type file does not declare.

A Supabase `update` of an object with an `undefined` value leaves that
column alone, because JSON drops the key. The model keeps this: `ProfilePatch`
has one `Option` per column.

`.single()` yields a row only when exactly one row matches. `Profiles.SingleMatch`
models it.

## Model

| member | source | states |
|---|---|---|
| Text.SplitFirst | components/navigation.tsx:99 | `s.split(c)[0]` is a prefix of `s` without `c`, followed in `s` by `c` unless it is all of `s` |
| Profiles.Apply | app/api/checkout/verify/route.ts:107-116 | each of the eight updatable columns takes the patch's value when the patch names it and keeps its old value otherwise; identity, contact, timestamps, `topup_minutes` and `api_key` never change; a patch without minute columns keeps all three counters; the empty patch changes nothing |
| Profiles.PatchRow | app/api/checkout/verify/route.ts:74-79 | `update().eq('id', id)` changes only row `id` (if present), keeps the key set and keeps rows keyed by their id |
| Profiles.SingleMatch | app/api/stripe-webhook/route.ts:85-89 | `.single()` yields a row iff exactly one row matches, and then that row |
| Profiles.FindByEmail | app/api/checkout/verify/route.ts:54 | `users.find(u => u.email === email)`: none iff no user has that email, otherwise the first such user |
| Profiles.ProfilesTable.UpdateById | app/api/stripe-webhook/route.ts:92-98 | the table becomes `PatchRow` of the old table and stays keyed by id |
| Profiles.ProfilesTable.FindByCustomer | app/api/stripe-webhook/route.ts:85-91 | the lookup by `stripe_customer_id` answers the single matching row or nothing, and changes nothing |
| CheckoutVerify.MinutesLimit | app/api/checkout/verify/route.ts:100-113 | `minutesMap[planId] \|\| 5`: basic 30, pro 120, max 350, every other id (economy, master, absent) 5 |
| CheckoutVerify.SessionEmail | app/api/checkout/verify/route.ts:38 | the truthy one of `customer_email`, else of `customer_details.email`; none iff both are falsy |
| CheckoutVerify.Decide | app/api/checkout/verify/route.ts:21-97 | a request is accepted iff the session id is truthy, Stripe is configured, the session is retrieved and paid, it has an email, the user list is read and a user has that email; the user is the first with that email; top-up iff `metadata.type` is "topup" |
| CheckoutVerify.Outcome | app/api/checkout/verify/route.ts:60-121 | the keys of the table are kept, and every failure response leaves the table unchanged |
| CheckoutVerify.Effect | app/api/checkout/verify/route.ts:60-128 | carrying out a decision keeps the keys of the table, and every failure leaves the table unchanged |
| CheckoutVerify.Perform | app/api/checkout/verify/route.ts:60-128 | the read-then-write against the profiles table: its response and new table are exactly `Effect` of the decision on the old table |
| CheckoutVerify.Verify | app/api/checkout/verify/route.ts:19-138 | the route's response and new table are exactly `Outcome` of the old table |
| CheckoutVerify.RejectionWritesNothing | app/api/checkout/verify/route.ts:21-58 | no early rejection writes |
| CheckoutVerify.GuardRejections | app/api/checkout/verify/route.ts:23-58 | every guard in order: no session id 400, Stripe not configured 503, a failed retrieve 500 with its message or the fallback, unpaid 400, no email 400, a failed user listing 500, unknown user 404, each with the table unchanged |
| CheckoutVerify.NonTopUpIsSubscription | app/api/checkout/verify/route.ts:60-93 | any `type` other than "topup", absent included, takes the subscription path |
| CheckoutVerify.TopUpEffect | app/api/checkout/verify/route.ts:60-91 | `extra_minutes` becomes the value read (0 if unreadable) plus the parsed minutes (0 if absent); nothing else is written; the response reports that total |
| CheckoutVerify.TopUpTwiceAddsTwice | app/api/checkout/verify/route.ts:60-79 | verifying the same top-up session twice adds its minutes twice |
| CheckoutVerify.TopUpAfterFailedReadOverwrites | app/api/checkout/verify/route.ts:65-77 | when the read fails the balance is overwritten with the purchased minutes alone |
| CheckoutVerify.SubscriptionEffect | app/api/checkout/verify/route.ts:93-128 | plan := planId (kept when absent), status active, period `billingPeriod` or "monthly", limit from `MinutesLimit`, used := 0; `extra_minutes` and Stripe ids untouched; response echoes plan and period |
| CheckoutVerify.TopUpCanGoNegative | app/api/checkout/verify/route.ts:62-77 | a top-up of -10 minutes leaves a balance of -10 |
| StripeWebhook.Handle | app/api/stripe-webhook/route.ts:33-111 | completion writes iff the email and `planId` are truthy; subscription events always write; no action touches minutes or the period |
| StripeWebhook.Target | app/api/stripe-webhook/route.ts:50-91 | the row looked up, with the email searched in the returned user list: none for events that write nothing |
| StripeWebhook.NewRows | app/api/stripe-webhook/route.ts:21-108 | one delivery keeps the key set of the table |
| StripeWebhook.Webhook | app/api/stripe-webhook/route.ts:15-115 | with the intended user lookup: the response is 400 iff the signature is invalid and `received` otherwise, even after an update error; the table becomes `NewRows` |
| StripeWebhook.AsWritten | app/api/stripe-webhook/route.ts:21-115 | as written: 400 iff the signature is invalid; a 500 exactly for a completion with a truthy email and plan id, which then writes nothing; no failure response writes |
| StripeWebhook.CompletionFailsAsWritten | app/api/stripe-webhook/route.ts:49-66 | as written, a completion for a known user with an inactive plan gets a 500 and leaves the table unchanged; the intended lookup changes the table |
| StripeWebhook.InvalidSignatureWritesNothing | app/api/stripe-webhook/route.ts:21-30 | a failed signature check handles no event |
| StripeWebhook.CompletedWithoutEmailOrPlanWritesNothing | app/api/stripe-webhook/route.ts:38-46 | completion without an email or a plan id writes nothing |
| StripeWebhook.CompletedActivates | app/api/stripe-webhook/route.ts:58-66 | completion for the user found by `customer_email`, else `customer_details.email`, sets plan, status active and both Stripe ids, and nothing else |
| StripeWebhook.DeletedDowngrades | app/api/stripe-webhook/route.ts:95-96 | deletion sets status cancelled and plan "free" on the customer's row |
| StripeWebhook.UpdatedAlwaysActivates | app/api/stripe-webhook/route.ts:95-96 | an update sets status active whatever Stripe's status is, plan := `metadata.planId` or "free" |
| StripeWebhook.UnmatchedCustomerWritesNothing | app/api/stripe-webhook/route.ts:85-91 | a customer id that matches no row, or several, writes nothing |
| StripeWebhook.UnhandledWritesNothing | app/api/stripe-webhook/route.ts:110-114 | unhandled event types write nothing |
| StripeWebhook.NeverTouchesMinutes | app/api/stripe-webhook/route.ts:58-98 | no delivery changes used minutes, the limit or `extra_minutes` of any row |
| PluginExchange.Summary | app/api/plugin/auth/exchange-token/route.ts:132-137 | remaining = max(0, limit - used), never negative; top-up = `topup_minutes` or 0; total = remaining + top-up, non-negative when the top-up is |
| PluginExchange.Granted | app/api/plugin/auth/exchange-token/route.ts:140-164 | the success body carries the profile's id, plan and status, the period or "monthly", the summary, and the profile's `api_key` when truthy, else null |
| PluginExchange.Check | app/api/plugin/auth/exchange-token/route.ts:39-94 | expiry only of the single row holding a well-formed token whose time has passed; consumption only of an unexpired, unused such row |
| PluginExchange.TokenTable.Exchange | app/api/plugin/auth/exchange-token/route.ts:33-172 | the new token table is `NewRows` and the response `Reply` of the old table |
| PluginExchange.MissingTokenRefused | app/api/plugin/auth/exchange-token/route.ts:39-44 | a missing, non-string or empty token gives 400 with no change |
| PluginExchange.FormatCheck | app/api/plugin/auth/exchange-token/route.ts:47-52 | a non-empty token is refused as malformed iff it lacks the `plt_` prefix or is not 68 characters long |
| PluginExchange.UnknownTokenRefused | app/api/plugin/auth/exchange-token/route.ts:55-66 | a token held by no row (or by several) gives 401 with no change |
| PluginExchange.ExpiredTokenDeleted | app/api/plugin/auth/exchange-token/route.ts:69-80 | expiry (strict `<`) is checked before the used flag; the row is deleted and 401 returned |
| PluginExchange.UsedTokenRefused | app/api/plugin/auth/exchange-token/route.ts:83-88 | a used, unexpired token gives 401 and the table is unchanged |
| PluginExchange.MarkUsedKeepsTokens | app/api/plugin/auth/exchange-token/route.ts:91-94 | setting `used` leaves the rows holding each token as they were |
| PluginExchange.FreshTokenConsumed | app/api/plugin/auth/exchange-token/route.ts:55-129 | a well-formed token held by exactly one unexpired, unused row is consumed: that row alone is marked used, and the reply is its user's profile, or 404 without one |
| PluginExchange.SecondExchangeRefused | app/api/plugin/auth/exchange-token/route.ts:90-129 | after a fresh token has been accepted, the same token is refused with 401 at any later time, even if the first exchange ended with 404 |
| PluginExchange.UnlimitedShowsNothingRemaining | app/api/plugin/auth/exchange-token/route.ts:132-137 | with limit -1 the remaining subscription minutes are 0 and the total is the top-up |
| CheckoutApi.Prices | app/api/checkout/route.ts:8-13 | the catalog keys are exactly free, economy, pro and master; only free costs 0 |
| CheckoutApi.Decide | app/api/checkout/route.ts:21-54 | invalid iff the plan id is falsy or not in the catalog; free iff it is "free"; a session is requested only for a priced plan |
| CheckoutApi.Respond | app/api/checkout/route.ts:21-63 | invalid gives 400 "Invalid plan selected"; free gives url "/get-started"; a created session's url; a failure gives 500 with its message or the fallback |
| CheckoutApi.PaidPlanSession | app/api/checkout/route.ts:38-54 | a paid plan requests a subscription paid by card, with promotion codes allowed, one line item of its price with quantity 1, the e-mail when truthy, and metadata holding only `planId` |
| CheckoutApi.SuccessUrlShape | app/api/checkout/route.ts:47-48 | the success URL starts with the base URL (default `http://localhost:3000`) and contains `{CHECKOUT_SESSION_ID}` |
| CheckoutPage.FindPlan | app/checkout/page.tsx:57 | `plans.find`: none iff no plan has the id, otherwise a plan with that id |
| CheckoutPage.PlanIdsAre | app/checkout/page.tsx:12-46 | the page's plan ids are exactly free, economy, pro and master |
| CheckoutPage.SelectPlan | app/checkout/page.tsx:55-63 | a known `plan` parameter is selected; a missing or unknown one selects "pro" |
| CheckoutPage.HandleCheckout | app/checkout/page.tsx:67-98 | nothing happens without a selected plan; an `error` is shown and not followed; otherwise a truthy url is navigated to; a thrown fetch shows the fixed message |
| CheckoutPage.ButtonRule | app/checkout/page.tsx:267 | the button is disabled iff loading or the plan is the free one |
| CheckoutPage.StarterLinkFallsBackToPro | app/pricing/page.tsx:129 | the pricing page's `plan=starter` link selects "pro" |
| ProfilePage.Gate | app/profile/page.tsx:43-132 | the page shows only once auth has loaded with a user; a loaded anonymous visitor is sent to /login |
| ProfilePage.DeriveUsage | app/profile/page.tsx:134-138 | plan defaults to "free", used to 0, limit to 5 when unset or 0; unlimited iff the limit is -1, and then no remaining count; remaining is limit - used; upgrade shown unless the plan is "max" |
| ProfilePage.DefaultsWithoutProfile | app/profile/page.tsx:134-137 | before the profile loads the card reads free, 0 of 5 |
| ProfilePage.ZeroLimitShownAsFive | app/profile/page.tsx:137 | a stored limit of 0 is displayed as 5 |
| ProfilePage.RemainingCanBeNegative | app/profile/page.tsx:371 | usage above the limit shows a negative remaining count |
| ProfilePage.HeaderName | app/profile/page.tsx:216 | the full name, else the e-mail before its first '@', else "Set your name" |
| ProfilePage.Badge | app/profile/page.tsx:135 | `planDetails[currentPlan]` exists iff the plan id is one of free, basic, pro, max |
| ProfilePage.CheckoutPlansHaveNoBadge | app/profile/page.tsx:219-221 | for "economy" and "master" there is no badge entry to read `color` and `name` from |
| ProfilePage.ShownBadge | app/profile/page.tsx:135 | the corrected badge: the table's entry when there is one, and always an entry of the table |
| ProfilePage.EveryProfileRendersABadge | app/profile/page.tsx:219-221 | with the corrected badge every profile has one; "economy" and "master" show the free plan's |
| AuthCallback.Decide | app/auth/callback/route.ts:6-44 | an `error` parameter wins over a code; a failed exchange reports its message or the fallback; a successful one goes to `next` or "/"; no code and no error reports the fixed message |
| AuthCallback.Location | app/auth/callback/route.ts:22-48 | a success goes to exactly origin + path; an error to origin + `/auth/auth-code-error?error=` + the encoded message; so every redirect starts with the origin |
| AuthCallback.ProviderErrorWins | app/auth/callback/route.ts:20-25 | with an `error` parameter the exchange result does not matter |
| AuthCallback.DefaultNextIsHome | app/auth/callback/route.ts:8 | without `next` a successful sign-in lands on origin + "/" |
| AuthCallback.NextCanLeaveOrigin | app/auth/callback/route.ts:39 | `next=.evil.example` yields a URL on another host |
| AuthCallback.SafeNext | app/auth/callback/route.ts:8 | the corrected `next`: always a path starting with "/", the given one when it is such a path |
| AuthCallback.DecideSafe | app/auth/callback/route.ts:39 | the corrected decision differs from `Decide` only in the success path |
| AuthCallback.SafeRedirectStaysOnOrigin | app/auth/callback/route.ts:39 | with the corrected rule every redirect starts with origin + "/" |
| Navigation.HiddenExactly | components/navigation.tsx:28-31 | the bar is hidden exactly on /login, /signup and /forgot-password |
| Navigation.GetStartedAndResetShowBar | components/navigation.tsx:28 | /get-started and /reset-password keep the bar |
| Navigation.ActiveWithoutAnchor | components/navigation.tsx:66 | for an href without '#' other than "/", active iff the path starts with it |
| Navigation.HomeOnlyOnHome | components/navigation.tsx:168 | the home link is active only on "/" |
| Navigation.ActiveNamesExactly | components/navigation.tsx:65-66 | a menu name is highlighted iff some item with that name is active |
| Navigation.ProductPageHighlightsTwo | components/navigation.tsx:33-66 | on /products/listen-buddy exactly "Listen Buddy" and "Pricing" are highlighted |
| Navigation.AboutHighlightedOnAboutUs | components/navigation.tsx:66 | "About" is highlighted on /about-us |
| Navigation.Initial | components/navigation.tsx:96 | the upper-cased first letter of the full name, else of the e-mail; truthy iff either is |
| Navigation.DisplayName | components/navigation.tsx:99 | the full name if truthy, else the e-mail up to its first '@' |
| Navigation.NamelessUserShownByLocalPart | components/navigation.tsx:196 | a user with no name and e-mail `local@domain` is shown as `local` |
| SignupPage.Validate | app/signup/page.tsx:55-63 | passes iff the passwords match and have at least 8 characters; a mismatch is reported first |
| SignupPage.Classify | app/signup/page.tsx:91-99 | "already been registered" or "already registered" always classify as registered |
| SignupPage.ShownError | app/signup/page.tsx:91-100 | registered, rate-limited and unconfirmed errors get their fixed texts; an unclassified message is shown as is, or the generic text when empty; the shown text is never empty |
| SignupPage.ClassificationByFourSubstrings | app/signup/page.tsx:91-98 | registered iff "already been registered" or "already registered" occurs; rate-limited iff not that and "rate limit" occurs; unconfirmed iff neither and "Email not confirmed" occurs |
| SignupPage.Submit | app/signup/page.tsx:51-112 | the provider is called iff validation passes; only a successful sign-up navigates to /signup/success; provider errors are classified; a throw shows the fixed text |
| SignupPage.MismatchTakesPrecedence | app/signup/page.tsx:55-63 | a short mismatching password reports the mismatch and calls nothing |
| SignupPage.FailureStaysWithError | app/signup/page.tsx:87-110 | every failure stays on the page with a non-empty error |
| SignupPage.NextImage | app/signup/page.tsx:46 | the carousel index advances by one modulo 3 |
| SignupPage.CarouselCycles | app/signup/page.tsx:14-48 | three steps return to the same image |
| LoginPage.Gate | app/login/page.tsx:24 | a signed-in visitor sees the already-logged-in view once auth has loaded |
| LoginPage.ShownSignInError | app/login/page.tsx:95-100 | "Invalid login credentials" becomes "Invalid email or password"; other messages are shown verbatim |
| LoginPage.Submit | app/login/page.tsx:77-106 | an empty field sets the message and calls nothing; otherwise the error is cleared, and set again only by a failure or a throw |
| LoginPage.SuccessClearsError | app/login/page.tsx:86 | a successful attempt leaves no error |
| GetStarted.ImageCount | app/get-started/page.tsx:87 | login mode has 4 images and sign-up mode 1 |
| GetStarted.ShownSignUpError | app/get-started/page.tsx:120-129 | "User already registered" or "already been registered" give the exists message; then "Password should be" gives the 6-character message; else verbatim |
| GetStarted.SignUpPagesDisagree | app/get-started/page.tsx:122 | a message with only "already registered" is recognised by the sign-up page and shown raw here |
| GetStarted.SubmitMessages | app/get-started/page.tsx:103-138 | error and success are never both set; a sign-up success sets the confirmation text; a sign-in success sets nothing; failures use the sign-in or sign-up wording |
| GetStarted.GetStartedForm.constructor | app/get-started/page.tsx:51-61 | login mode iff `mode` is "login"; index 0; no messages |
| GetStarted.GetStartedForm.ModeParamChanged | app/get-started/page.tsx:82-91 | the mode follows the parameter; the index resets to 0 exactly when the mode changes |
| GetStarted.GetStartedForm.Tick | app/get-started/page.tsx:93-101 | one interval moves the index by `NextImage`, keeping it in range |
| GetStarted.GetStartedForm.Toggle | app/get-started/page.tsx:421-425 | the mode flips, both messages are cleared, the index resets |
| GetStarted.GetStartedForm.Submit | app/get-started/page.tsx:103-138 | the two messages become `SubmitMessages` of the mode and the result |
| GetStarted.GetStartedForm.GoogleSignIn | app/get-started/page.tsx:140-146 | the error becomes the provider's message, or none |
| GetStarted.NextImage | app/get-started/page.tsx:95-99 | the index stays in range; it is fixed in sign-up mode and advances modulo 4 in login mode |
| GetStarted.CarouselPeriod | app/get-started/page.tsx:22-43 | four intervals return to the same image |
| ResetPassword.Validate | app/reset-password/page.tsx:66-74 | passes iff the passwords match and have at least 8 characters; the mismatch is checked first |
| ResetPassword.SubmitEffect | app/reset-password/page.tsx:63-100 | a failed check sets its message and keeps `success`; only a successful update clears the error and sets `success`; a provider error is shown verbatim |
| ResetPassword.View | app/reset-password/page.tsx:104-216 | success view first, then invalid link (false), then checking (null), then the form (true) |
| ResetPassword.ResetPasswordPage.constructor | app/reset-password/page.tsx:20-22 | the flag starts undecided, with no error and no success |
| ResetPassword.ResetPasswordPage.OnSessionChecked | app/reset-password/page.tsx:31-35 | the flag becomes true with a session and false without |
| ResetPassword.ResetPasswordPage.OnAuthEvent | app/reset-password/page.tsx:43-47 | `PASSWORD_RECOVERY` sets the flag to true; other events change nothing |
| ResetPassword.ResetPasswordPage.OnTimeout | app/reset-password/page.tsx:51-55 | an undecided flag becomes false; a decided one stays |
| ResetPassword.ResetPasswordPage.Submit | app/reset-password/page.tsx:63-100 | error and success become `SubmitEffect`; the flag is unchanged |
| ResetPassword.AfterTimeout | app/reset-password/page.tsx:52-54 | after the timeout the flag is decided, and a decided flag is kept |
| ResetPassword.TimeoutEndsChecking | app/reset-password/page.tsx:51-55 | after the timeout the page never shows the checking view; an undecided flag shows the invalid-link view |
| ResetPassword.ValidationIgnoresProvider | app/reset-password/page.tsx:66-76 | a failed check does not depend on the provider and keeps an earlier success |
| PlanVocabulary.PageAndApiCatalogsAgree | app/checkout/page.tsx:12-46 | the page's plan ids and prices equal the API catalog's |
| PlanVocabulary.BadgeMinutesMatchVerifyLimits | app/profile/page.tsx:15-20 | each `planDetails` minutes value equals the verify route's limit for that id |
| PlanVocabulary.TwoPlanVocabularies | app/api/checkout/verify/route.ts:100-105 | "basic" and "max" are neither declared plans nor sold; every sold plan gets limit 5 or 120; economy and master get the free plan's 5 |
| PlanVocabulary.VerifyMetadata | app/api/checkout/verify/route.ts:38-40 | the verify route reads `type` and `planId` from the metadata map, and no minutes when the key is absent |
| PlanVocabulary.CheckoutThenVerify | app/api/checkout/route.ts:50-52 | a session created by the checkout API and verified later is a monthly subscription to the plan bought, limit 120 for pro and 5 otherwise |
| PlanVocabulary.TopUpInvisibleToPlugin | app/api/plugin/auth/exchange-token/route.ts:136 | the verify top-up writes `extra_minutes`, which leaves the plugin's summary unchanged |
| PlanVocabulary.WebhookPlanHasNoBadge | app/api/stripe-webhook/route.ts:61 | a completed checkout for economy or master leaves a plan id the profile page has no badge for |
| PlanVocabulary.UnlimitedDisagrees | app/profile/page.tsx:138 | a limit of -1 shows "Unlimited" on the profile page and 0 remaining subscription minutes in the plugin |

## Left out

- JSON bodies that do not parse, and the `catch` branches those errors reach.
  Only the catches whose outcome depends on a modelled input are kept: the
  verify and checkout routes' Stripe errors, and the code-exchange throw.
- `parseInt` of a non-numeric `metadata.minutes` (NaN written as null).
  `minutes` is an already-parsed `Option<int>`.
- PluginExchange.Check: an `expires_at` that does not parse (an Invalid
  Date never compares as expired) is not modelled. `expiresAt` is an
  integer compared with the `now` parameter.
- Property names inherited from `Object.prototype` (for example
  `prices["constructor"]` or `minutesMap["constructor"]`). These make the
  source's truthiness lookups succeed; the model's maps hold only the
  declared keys.
- PluginExchange.TokenTable.Exchange: failures of the delete and mark-used
  writes are ignored by the source and are not modelled. So is a select
  error on the undeclared `topup_minutes`/`api_key` columns.
- CheckoutApi.Prices: unset price-id environment variables are modelled
  as arbitrary strings. Prices are integer cents rather than floats.
- The progress-bar percentage of the profile page (floating point).
- Timers, router navigation, `window.location` and React effect
  scheduling. Only the resulting state values are modelled; the
  reset-password effect re-runs its session check whenever the flag
  changes, and each such run is one `OnSessionChecked` call.
- Navigation.Initial: `toUpperCase` is modelled on ASCII letters only.
- Navigation: JavaScript string lengths count UTF-16 code units, while
  the model counts characters. This matters for the password length and
  the 68-character token only with non-BMP characters.
- StripeWebhook.Target: the source destructures `data.user` where
  `listUsers` returns `data.users` (app/api/stripe-webhook/route.ts:49-50).
  `existingUser.find` then throws and the delivery is answered with a 500.
  `StripeWebhook.AsWritten` models that; `Target`, `NewRows` and `Webhook`
  search the returned user list as intended (see Findings). Stripe's
  redelivery of a failed event is not modelled.
- The webhook's Supabase client uses the anonymous key
  (app/api/stripe-webhook/route.ts:12). Row-level security is not
  modelled; updates succeed or fail by the `updateFails` input.
- AuthCallback.Location: the `catch` branch refers to `origin`, which is
  declared inside the `try` block (app/auth/callback/route.ts:45-50). The
  model uses the request origin there. `encodeURIComponent` is a function
  parameter.
- The session of `contexts/auth-context.tsx` is not part of this model. It
  is an input (`signedIn`, `authLoading`). The same goes for
  `app/forgot-password/page.tsx` and the presentation-only pages.
- The get-started page's already-logged-in view (line 149) follows the
  same rule as `LoginPage.Gate` and is not modelled a second time.
- CheckoutVerify.Perform: the top-up's read of `extra_minutes`
  (app/api/checkout/verify/route.ts:65-71) and its update (lines 74-79)
  are two separate store calls, but the model performs them as one atomic
  step. Two verifications of the same session running at once (a second
  tab, a reload in flight) can both read the old balance and both write
  old + m, crediting the session once; `TopUpTwiceAddsTwice` holds only for
  requests one after the other, and that lost update is not captured.
- Deduplication of processed sessions, retries, usage consumption,
  past-due transitions and allowance resets. The code has none of these;
  the model shows their absence (`TopUpTwiceAddsTwice`,
  `UpdatedAlwaysActivates`).

## Findings

| source | as written | input that shows it | evidently intended | confidence | as-written member | corrected member |
|---|---|---|---|---|---|---|
| app/auth/callback/route.ts:8-39 | after a successful code exchange the browser is sent to `origin + next`, with `next` taken unchecked from the query | `next=.evil.example` on `https://zenphonyaudio.com` gives `https://zenphonyaudio.com.evil.example`, another host | `next` is a path on the site; anything not starting with "/" falls back to "/" | medium, not executed | AuthCallback.NextCanLeaveOrigin | AuthCallback.SafeRedirectStaysOnOrigin |
| app/api/stripe-webhook/route.ts:49-50 | the route takes a `user` field out of the `listUsers` answer, whose list is under `users`, and calls `find` on the result; that value is undefined, so the call throws outside any `try` | a `checkout.session.completed` event with a truthy e-mail and `planId` for an existing user: the answer is a 500 and no profile is written | `data.users` is searched, the user's profile is activated, and the delivery is acknowledged | medium, not executed | StripeWebhook.CompletionFailsAsWritten | StripeWebhook.CompletedActivates |
| app/profile/page.tsx:135-221 | `planDetails[currentPlan]` has entries only for free, basic, pro and max, and the header reads `plan.color` and `plan.name` unguarded | a profile whose `subscription_plan` is "economy" or "master", which the checkout API sells and the webhook and verify route write: `plan` is undefined and the render throws | every plan the site sells renders a badge; the model falls back to the free plan's entry | medium, not executed | ProfilePage.CheckoutPlansHaveNoBadge | ProfilePage.EveryProfileRendersABadge |
