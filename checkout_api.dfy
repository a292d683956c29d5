/**
 * POST /api/checkout: validates a plan id against the price catalog and
 * either short-circuits the free plan or asks Stripe for a subscription
 * checkout session. Prices are in cents.
 */
module CheckoutApi {
  import opened Wrappers
  import opened Text

  /** The Stripe price ids read from the environment. */
  datatype PriceIds = PriceIds(economy: string, pro: string, master: string)

  datatype CatalogEntry = CatalogEntry(priceId: string, priceCents: nat)

  /** The `prices` table (lines 8-13). */
  function Prices(env: PriceIds): (m: map<string, CatalogEntry>)
    ensures m.Keys == {"free", "economy", "pro", "master"}
    ensures m["free"].priceCents == 0
    ensures forall k :: k in m && k != "free" ==> m[k].priceCents > 0
  {
    map["free" := CatalogEntry("", 0),
        "economy" := CatalogEntry(env.economy, 799),
        "pro" := CatalogEntry(env.pro, 2500),
        "master" := CatalogEntry(env.master, 5500)]
  }

  datatype LineItem = LineItem(price: string, quantity: nat)

  /** The parameters of `stripe.checkout.sessions.create`. */
  datatype SessionRequest = SessionRequest(
    paymentMethodTypes: seq<string>,
    lineItems: seq<LineItem>,
    mode: string,
    successUrl: string,
    cancelUrl: string,
    customerEmail: Option<string>,
    metadata: map<string, string>,
    allowPromotionCodes: bool)

  datatype Decision =
    | InvalidPlan                     // 400 'Invalid plan selected'
    | FreePlan                        // answers with FreePlanUrl; no session is created
    | CreateSession(request: SessionRequest)

  const FreePlanUrl := "/get-started"
  const DefaultBaseUrl := "http://localhost:3000"
  const SessionPlaceholder := "{CHECKOUT_SESSION_ID}"

  /** `${NEXT_PUBLIC_BASE_URL || 'http://localhost:3000'}` */
  function BaseUrl(configured: Option<string>): string {
    Or(configured, DefaultBaseUrl)
  }

  /** Lines 21-54: from the body's `planId` and `email` to what the route does. */
  function Decide(planId: Option<string>, email: Option<string>, baseUrl: Option<string>, env: PriceIds): (d: Decision)
    ensures d.InvalidPlan? <==> !Truthy(planId) || planId.value !in Prices(env)
    ensures d.FreePlan? <==> planId == Some("free")
    ensures d.CreateSession? ==> planId.value in Prices(env) && Prices(env)[planId.value].priceCents > 0
  {
    if !Truthy(planId) || planId.value !in Prices(env) then InvalidPlan
    else
      var plan := Prices(env)[planId.value];
      if plan.priceCents == 0 then FreePlan
      else
        var base := BaseUrl(baseUrl);
        CreateSession(SessionRequest(
          ["card"],
          [LineItem(plan.priceId, 1)],
          "subscription",
          base + "/checkout/success?session_id=" + SessionPlaceholder,
          base + "/products/listen-buddy#pricing",
          if Truthy(email) then email else None,
          map["planId" := planId.value],
          true))
  }

  /** What `sessions.create` gave: a session (whose `url` may be null) or a thrown error. */
  datatype Creation = Created(url: Option<string>) | CreateFailed(message: Option<string>)

  datatype Response = Error(status: int, error: string) | Redirect(url: Option<string>)

  /** The JSON answer. */
  function Respond(d: Decision, c: Creation): (r: Response)
    ensures d.InvalidPlan? ==> r == Error(400, "Invalid plan selected")
    ensures d.FreePlan? ==> r == Redirect(Some(FreePlanUrl))
    ensures d.CreateSession? && c.Created? ==> r == Redirect(c.url)
    ensures d.CreateSession? && c.CreateFailed? ==> r == Error(500, Or(c.message, "Failed to create checkout session"))
  {
    match d
    case InvalidPlan => Error(400, "Invalid plan selected")
    case FreePlan => Redirect(Some(FreePlanUrl))
    case CreateSession(_) =>
      match c
      case Created(url) => Redirect(url)
      case CreateFailed(m) => Error(500, Or(m, "Failed to create checkout session"))
  }

  // ---- Properties of the route ----

  /**
   * A paid plan asks for a card subscription, with promotion codes allowed,
   * with one line item of that plan's price, quantity 1, and metadata holding the plan id and nothing
   * else: no purchase type, no billing period, no minutes.
   */
  lemma PaidPlanSession(p: string, email: Option<string>, baseUrl: Option<string>, env: PriceIds)
    requires p in {"economy", "pro", "master"}
    ensures Decide(Some(p), email, baseUrl, env).CreateSession?
    ensures var req := Decide(Some(p), email, baseUrl, env).request;
      && req.paymentMethodTypes == ["card"]
      && req.mode == "subscription"
      && req.allowPromotionCodes
      && req.lineItems == [LineItem(Prices(env)[p].priceId, 1)]
      && req.metadata == map["planId" := p]
      && req.metadata.Keys == {"planId"}
      && req.customerEmail == (if Truthy(email) then email else None)
  {
  }

  /** The success URL carries Stripe's session placeholder, under the configured or default base. */
  lemma SuccessUrlShape(p: string, email: Option<string>, baseUrl: Option<string>, env: PriceIds)
    requires p in {"economy", "pro", "master"}
    ensures var req := Decide(Some(p), email, baseUrl, env).request;
      && StartsWith(req.successUrl, BaseUrl(baseUrl))
      && Contains(req.successUrl, SessionPlaceholder)
      && (!Truthy(baseUrl) ==> StartsWith(req.successUrl, DefaultBaseUrl))
  {
    var req := Decide(Some(p), email, baseUrl, env).request;
    var base := BaseUrl(baseUrl);
    var prefix := base + "/checkout/success?session_id=";
    assert req.successUrl == prefix + SessionPlaceholder;
    assert OccursAt(req.successUrl, SessionPlaceholder, |prefix|);
    ContainsIffOccurs(req.successUrl, SessionPlaceholder);
    assert req.successUrl[..|base|] == base;
  }
}
