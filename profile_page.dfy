/**
 * The profile page (app/profile/page.tsx): who may see it, and the usage
 * figures and plan badge it derives from the profile row with `||`
 * defaults.
 */
module ProfilePage {
  import opened Wrappers
  import opened Text
  import opened Profiles

  datatype PlanDetail = PlanDetail(name: string, color: string, minutes: int)

  /** The `planDetails` table (lines 15-20). */
  const PlanDetails: map<string, PlanDetail> := map[
    "free" := PlanDetail("Free", "cyan", 5),
    "basic" := PlanDetail("Basic", "emerald", 30),
    "pro" := PlanDetail("Pro", "violet", 120),
    "max" := PlanDetail("Max", "amber", 350)]

  /** What the page shows while the session is being resolved. */
  datatype Screen = Spinner | SpinnerAndGoToLogin | Page

  /** Lines 43-47 and 126-132. */
  function Gate(authLoading: bool, signedIn: bool): (g: Screen)
    ensures g == Page <==> !authLoading && signedIn
    ensures g == SpinnerAndGoToLogin <==> !authLoading && !signedIn
  {
    if authLoading then Spinner else if !signedIn then SpinnerAndGoToLogin else Page
  }

  /** The usage card as rendered. `remaining` is shown only when not unlimited. */
  datatype Usage = Usage(
    currentPlan: string,
    minutesUsed: int,
    minutesLimit: int,
    unlimited: bool,
    remaining: Option<int>,
    showUpgrade: bool)

  /** Lines 134-138, 353-372 and 398, for a loaded or not yet loaded profile. */
  function DeriveUsage(profile: Option<Profile>): (u: Usage)
    ensures u.currentPlan != ""
    ensures u.minutesLimit != 0
    ensures u.unlimited <==> u.minutesLimit == -1
    ensures !u.unlimited <==> u.remaining.Some?
    ensures u.remaining.Some? ==> u.remaining.value == u.minutesLimit - u.minutesUsed
    ensures u.showUpgrade <==> u.currentPlan != "max"
    ensures profile.Some? && profile.value.subscriptionPlan != "" ==> u.currentPlan == profile.value.subscriptionPlan
    ensures profile.Some? ==> u.minutesUsed == profile.value.listeningMinutesUsed
    ensures profile.Some? && profile.value.listeningMinutesLimit != 0 ==> u.minutesLimit == profile.value.listeningMinutesLimit
  {
    var plan := if profile.Some? && profile.value.subscriptionPlan != "" then profile.value.subscriptionPlan else "free";
    var used := if profile.Some? then profile.value.listeningMinutesUsed else 0;
    var limit := if profile.Some? && profile.value.listeningMinutesLimit != 0 then profile.value.listeningMinutesLimit else 5;
    var unlimited := limit == -1;
    Usage(plan, used, limit, unlimited, if unlimited then None else Some(limit - used), plan != "max")
  }

  /** Before the profile loads the card shows the free plan, 0 of 5 minutes. */
  lemma DefaultsWithoutProfile()
    ensures DeriveUsage(None) == Usage("free", 0, 5, false, Some(5), true)
  {
  }

  /** A limit of 0 is shown as 5, because `||` treats 0 as absent. */
  lemma ZeroLimitShownAsFive(p: Profile)
    requires p.listeningMinutesLimit == 0
    ensures DeriveUsage(Some(p)).minutesLimit == 5
  {
  }

  /** The remaining count is not clamped: usage above the limit shows a negative number. */
  lemma RemainingCanBeNegative(p: Profile)
    requires p.listeningMinutesLimit > 0 && p.listeningMinutesUsed > p.listeningMinutesLimit
    ensures DeriveUsage(Some(p)).remaining.Some? && DeriveUsage(Some(p)).remaining.value < 0
  {
  }

  /**
   * The header name (line 216): the full name, else the part of the e-mail
   * before the first '@', else a prompt; an empty string counts as absent.
   */
  function HeaderName(fullName: Option<string>, email: Option<string>): (r: string)
    ensures Truthy(fullName) ==> r == fullName.value
    ensures !Truthy(fullName) && email.Some? && email.value != "" && email.value[0] != '@' ==> r == SplitFirst(email.value, '@')
    ensures !Truthy(fullName) && email.Some? && email.value != "" && email.value[0] != '@' ==> StartsWith(email.value, r) && '@' !in r && r != ""
    ensures !Truthy(fullName) && (email.None? || email.value == "" || email.value[0] == '@') ==> r == "Set your name"
  {
    var local := if email.Some? then Some(SplitFirst(email.value, '@')) else None;
    Or(OrElse(fullName, local), "Set your name")
  }

  /** The badge `planDetails[currentPlan]`: absent for a plan id outside the table. */
  function Badge(u: Usage): (b: Option<PlanDetail>)
    ensures b.Some? <==> u.currentPlan in PlanDetails
    ensures b.Some? ==> b.value == PlanDetails[u.currentPlan]
  {
    if u.currentPlan in PlanDetails then Some(PlanDetails[u.currentPlan]) else None
  }

  /**
   * The plan ids that the checkout API sells as paid plans, "economy" and
   * "master", have no badge: `plan.color` is then read from `undefined`.
   */
  lemma CheckoutPlansHaveNoBadge(p: Profile)
    requires p.subscriptionPlan in {"economy", "master"}
    ensures Badge(DeriveUsage(Some(p))).None?
  {
  }

  /**
   * The badge with the evidently intended fallback: a plan id outside the
   * table is shown with the free plan's entry, so the header always has a
   * `color` and a `name` to read.
   */
  function ShownBadge(u: Usage): (d: PlanDetail)
    ensures Badge(u).Some? ==> d == Badge(u).value
    ensures d in PlanDetails.Values
  {
    match Badge(u)
    case Some(b) => b
    case None => PlanDetails["free"]
  }

  /** With the fallback every profile renders a badge; "economy" and "master" show the free one. */
  lemma EveryProfileRendersABadge(p: Profile)
    ensures ShownBadge(DeriveUsage(Some(p))) in PlanDetails.Values
    ensures p.subscriptionPlan in {"economy", "master"} ==> ShownBadge(DeriveUsage(Some(p))) == PlanDetails["free"]
  {
    if p.subscriptionPlan in {"economy", "master"} {
      CheckoutPlansHaveNoBadge(p);
    }
  }
}
