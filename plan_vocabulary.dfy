/**
 * Facts that span several files: what one part of the site writes and
 * another reads about plans and minutes.
 */
module PlanVocabulary {
  import opened Wrappers
  import opened Text
  import opened Profiles
  import CheckoutApi
  import CheckoutPage
  import CheckoutVerify
  import StripeWebhook
  import PluginExchange
  import ProfilePage

  /** The checkout page offers exactly the plans the checkout API prices. */
  lemma PageAndApiCatalogsAgree(env: CheckoutApi.PriceIds)
    ensures CheckoutPage.PlanIds() == CheckoutApi.Prices(env).Keys
    ensures forall i :: 0 <= i < |CheckoutPage.Plans| ==>
      CheckoutPage.Plans[i].priceCents == CheckoutApi.Prices(env)[CheckoutPage.Plans[i].id].priceCents
  {
    CheckoutPage.PlanIdsAre();
  }

  /** The profile page's minutes per plan are the verify route's `minutesMap`. */
  lemma BadgeMinutesMatchVerifyLimits(plan: string)
    requires plan in ProfilePage.PlanDetails
    ensures ProfilePage.PlanDetails[plan].minutes == CheckoutVerify.MinutesLimit(Some(plan))
  {
  }

  /** The two plan vocabularies: the verify route's paid names are not declared, the sold ones have no limit entry. */
  lemma TwoPlanVocabularies(env: CheckoutApi.PriceIds)
    ensures "basic" !in DeclaredPlans && "max" !in DeclaredPlans
    ensures "basic" !in CheckoutApi.Prices(env) && "max" !in CheckoutApi.Prices(env)
    ensures forall p :: p in CheckoutApi.Prices(env) ==> CheckoutVerify.MinutesLimit(Some(p)) in {5, 120}
    ensures CheckoutVerify.MinutesLimit(Some("economy")) == CheckoutVerify.MinutesLimit(Some("free"))
    ensures CheckoutVerify.MinutesLimit(Some("master")) == CheckoutVerify.MinutesLimit(Some("free"))
  {
  }

  /** How the verify route reads the Stripe metadata map (lines 38-40, 60, 62, 95-97). */
  function VerifyMetadata(m: map<string, string>): (meta: CheckoutVerify.Metadata)
    requires "minutes" !in m
    ensures meta.purchaseType == (if "type" in m then Some(m["type"]) else None)
    ensures meta.planId == (if "planId" in m then Some(m["planId"]) else None)
    ensures meta.minutes.None?
  {
    CheckoutVerify.Metadata(
      if "type" in m then Some(m["type"]) else None,
      if "planId" in m then Some(m["planId"]) else None,
      if "billingPeriod" in m then Some(m["billingPeriod"]) else None,
      None)
  }

  /**
   * A session created by the checkout API and later verified is a monthly
   * subscription to the plan bought, whose minute limit is 120 for "pro"
   * and the free plan's 5 for "economy" and "master".
   */
  lemma CheckoutThenVerify(p: string, email: Option<string>, baseUrl: Option<string>, env: CheckoutApi.PriceIds,
                           sessionId: Option<string>, users: seq<AuthUser>)
    requires p in {"economy", "pro", "master"}
    ensures var req := CheckoutApi.Decide(Some(p), email, baseUrl, env).request;
      var session := CheckoutVerify.Session("paid", req.customerEmail, None, VerifyMetadata(req.metadata));
      var d := CheckoutVerify.Decide(sessionId, true, CheckoutVerify.Retrieved(session), CheckoutVerify.Listed(users));
      !d.Reject? ==>
        && d == CheckoutVerify.Subscribe(d.userId, Some(p), "monthly")
        && CheckoutVerify.SubscriptionPatch(d.plan, d.billingPeriod).listeningMinutesLimit == Some(if p == "pro" then 120 else 5)
  {
    CheckoutApi.PaidPlanSession(p, email, baseUrl, env);
  }

  /**
   * A top-up credited by the verify route writes `extra_minutes`, which the
   * plugin does not read: its summary of the row is unchanged.
   */
  lemma TopUpInvisibleToPlugin(row: Profile, total: int)
    ensures PluginExchange.Summary(Apply(row, CheckoutVerify.TopUpPatch(total))) == PluginExchange.Summary(row)
    ensures Apply(row, CheckoutVerify.TopUpPatch(total)).extraMinutes == total
  {
  }

  /**
   * A completed checkout for "economy" or "master" recorded by the webhook
   * leaves a plan id for which the profile page has no badge.
   */
  lemma WebhookPlanHasNoBadge(row: Profile, s: StripeWebhook.CheckoutSession)
    requires s.planId == Some("economy") || s.planId == Some("master")
    requires Truthy(OrElse(s.customerEmail, s.detailsEmail))
    ensures var a := StripeWebhook.Handle(StripeWebhook.CheckoutSessionCompleted(s));
      a.UpdateUserWithEmail? && ProfilePage.Badge(ProfilePage.DeriveUsage(Some(Apply(row, a.patch)))).None?
  {
  }

  /** An unlimited plan (limit -1) is "Unlimited" on the profile page but leaves the plugin 0 subscription minutes. */
  lemma UnlimitedDisagrees(row: Profile)
    requires row.listeningMinutesLimit == -1 && row.listeningMinutesUsed >= 0
    ensures ProfilePage.DeriveUsage(Some(row)).unlimited
    ensures PluginExchange.Summary(row).subscriptionRemaining == 0
  {
  }
}
