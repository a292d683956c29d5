/**
 * POST /api/checkout/verify: the fallback that turns a paid checkout
 * session into a profile update when the webhook cannot reach the
 * deployment. A top-up adds to `extra_minutes`; anything else activates a
 * subscription.
 */
module CheckoutVerify {
  import opened Wrappers
  import opened Text
  import opened Profiles

  /** The session metadata; `minutes` is already parsed (`parseInt`). */
  datatype Metadata = Metadata(
    purchaseType: Option<string>,
    planId: Option<string>,
    billingPeriod: Option<string>,
    minutes: Option<int>)

  datatype Session = Session(
    paymentStatus: string,
    customerEmail: Option<string>,
    detailsEmail: Option<string>,
    metadata: Metadata)

  /** What `sessions.retrieve(sessionId)` gave: the session, or a thrown error. */
  datatype Retrieval = Retrieved(session: Session) | RetrieveFailed(message: Option<string>)

  /** What `auth.admin.listUsers()` gave. */
  datatype UserListing = Listed(users: seq<AuthUser>) | ListFailed

  /** Whether the profile read and the profile update of this request fail. */
  datatype StoreFaults = StoreFaults(readFails: bool, updateFails: bool)

  datatype Response =
    | Failure(status: int, error: string)
    | TopUpDone(minutes: int, totalMinutes: int)
    | SubscriptionDone(plan: Option<string>, billingPeriod: string)

  const UpdateFailedMessage := "Failed to update profile"

  /** The guard chain's verdict, before anything is written. */
  datatype Decision =
    | Reject(response: Response)
    | TopUp(userId: string, minutes: int)
    | Subscribe(userId: string, plan: Option<string>, billingPeriod: string)

  /** `minutesMap[planId] || 5` */
  function MinutesLimit(planId: Option<string>): (limit: int)
    ensures limit in {5, 30, 120, 350}
    ensures planId == Some("basic") ==> limit == 30
    ensures planId == Some("pro") ==> limit == 120
    ensures planId == Some("max") ==> limit == 350
    ensures !(planId in {Some("basic"), Some("pro"), Some("max")}) ==> limit == 5
  {
    match planId
    case Some("free") => 5
    case Some("basic") => 30
    case Some("pro") => 120
    case Some("max") => 350
    case _ => 5
  }

  /** `session.customer_email || session.customer_details?.email`, if truthy. */
  function SessionEmail(s: Session): (e: Option<string>)
    ensures e.Some? <==> Truthy(s.customerEmail) || Truthy(s.detailsEmail)
    ensures e.Some? ==> e.value != "" && (s.customerEmail == e || s.detailsEmail == e)
    ensures Truthy(s.customerEmail) ==> e == s.customerEmail
  {
    var e := OrElse(s.customerEmail, s.detailsEmail);
    if Truthy(e) then e else None
  }

  /** The session id, the configuration and the payment status all pass. */
  predicate PaidSession(sessionId: Option<string>, stripeConfigured: bool, retrieval: Retrieval) {
    Truthy(sessionId) && stripeConfigured && retrieval.Retrieved? && retrieval.session.paymentStatus == "paid"
  }

  /** The guard chain of lines 21-58 and the choice of path at line 60. */
  function Decide(sessionId: Option<string>, stripeConfigured: bool, retrieval: Retrieval, listing: UserListing): (d: Decision)
    ensures !d.Reject? ==> Truthy(sessionId) && stripeConfigured && retrieval.Retrieved?
    ensures !d.Reject? ==> retrieval.session.paymentStatus == "paid" && listing.Listed?
    ensures !d.Reject? ==> SessionEmail(retrieval.session).Some?
    ensures !d.Reject? ==> FindByEmail(listing.users, SessionEmail(retrieval.session).value) == Some(AuthUser(d.userId, SessionEmail(retrieval.session)))
    ensures (PaidSession(sessionId, stripeConfigured, retrieval) && SessionEmail(retrieval.session).Some? && listing.Listed?
             && FindByEmail(listing.users, SessionEmail(retrieval.session).value).Some?) ==> !d.Reject?
    ensures d.TopUp? <==> !d.Reject? && retrieval.session.metadata.purchaseType == Some("topup")
    ensures d.Reject? ==> d.response.Failure?
  {
    if !Truthy(sessionId) then Reject(Failure(400, "Session ID required"))
    else if !stripeConfigured then Reject(Failure(503, "Stripe not configured"))
    else if retrieval.RetrieveFailed? then Reject(Failure(500, Or(retrieval.message, "Failed to verify checkout")))
    else if retrieval.session.paymentStatus != "paid" then Reject(Failure(400, "Payment not completed"))
    else
      var session := retrieval.session;
      var email := SessionEmail(session);
      if email.None? then Reject(Failure(400, "No email found in session"))
      else if listing.ListFailed? then Reject(Failure(500, "Failed to find user"))
      else
        match FindByEmail(listing.users, email.value)
        case None => Reject(Failure(404, "User not found"))
        case Some(user) =>
          var meta := session.metadata;
          if meta.purchaseType == Some("topup") then TopUp(user.id, meta.minutes.GetOr(0))
          else Subscribe(user.id, meta.planId, Or(meta.billingPeriod, "monthly"))
  }

  /** `profile?.extra_minutes || 0` for the row read at lines 65-71. */
  function CurrentExtra(rows: map<string, Profile>, id: string, readFails: bool): int
  {
    if !readFails && id in rows then rows[id].extraMinutes else 0
  }

  /** The update of the top-up path: `extra_minutes` alone. */
  function TopUpPatch(total: int): ProfilePatch {
    EmptyPatch.(extraMinutes := Some(total))
  }

  /** The five columns the subscription path writes (lines 107-113). */
  function SubscriptionPatch(plan: Option<string>, period: string): ProfilePatch
  {
    ProfilePatch(plan, Some(Active), Some(period), Some(0), Some(MinutesLimit(plan)), None, None, None)
  }

  /** What carrying out a decision does: the response and the new table. */
  function Effect(rows: map<string, Profile>, d: Decision, faults: StoreFaults): (o: (Response, map<string, Profile>))
    ensures o.1.Keys == rows.Keys
    ensures o.0.Failure? ==> o.1 == rows
  {
    match d
    case Reject(r) => (r, rows)
    case TopUp(id, minutes) =>
      var total := CurrentExtra(rows, id, faults.readFails) + minutes;
      if faults.updateFails then (Failure(500, UpdateFailedMessage), rows)
      else (TopUpDone(minutes, total), PatchRow(rows, id, TopUpPatch(total)))
    case Subscribe(id, plan, period) =>
      if faults.updateFails then (Failure(500, UpdateFailedMessage), rows)
      else (SubscriptionDone(plan, period), PatchRow(rows, id, SubscriptionPatch(plan, period)))
  }

  /** The response and the new table for one request. */
  function Outcome(rows: map<string, Profile>, sessionId: Option<string>, stripeConfigured: bool,
                   retrieval: Retrieval, listing: UserListing, faults: StoreFaults): (o: (Response, map<string, Profile>))
    ensures o.1.Keys == rows.Keys
    ensures o.0.Failure? ==> o.1 == rows
  {
    Effect(rows, Decide(sessionId, stripeConfigured, retrieval, listing), faults)
  }

  /** Lines 60-128: carry out a decision against the profiles table. */
  method Perform(table: ProfilesTable, d: Decision, faults: StoreFaults) returns (resp: Response)
    requires table.Valid()
    modifies table
    ensures table.Valid()
    ensures (resp, table.rows) == Effect(old(table.rows), d, faults)
  {
    match d {
      case Reject(r) =>
        resp := r;
      case TopUp(id, minutes) =>
        var current := 0;
        if !faults.readFails && id in table.rows {
          current := table.rows[id].extraMinutes;
        }
        var total := current + minutes;
        if faults.updateFails {
          resp := Failure(500, UpdateFailedMessage);
        } else {
          table.UpdateById(id, TopUpPatch(total));
          resp := TopUpDone(minutes, total);
        }
      case Subscribe(id, plan, period) =>
        if faults.updateFails {
          resp := Failure(500, UpdateFailedMessage);
        } else {
          table.UpdateById(id, SubscriptionPatch(plan, period));
          resp := SubscriptionDone(plan, period);
        }
    }
  }

  /** The route against the profiles table: the guard chain, then the write. */
  method Verify(table: ProfilesTable, sessionId: Option<string>, stripeConfigured: bool,
                retrieval: Retrieval, listing: UserListing, faults: StoreFaults) returns (resp: Response)
    requires table.Valid()
    modifies table
    ensures table.Valid()
    ensures (resp, table.rows) == Outcome(old(table.rows), sessionId, stripeConfigured, retrieval, listing, faults)
  {
    var d := Decide(sessionId, stripeConfigured, retrieval, listing);
    resp := Perform(table, d, faults);
  }

  // ---- Properties of the route ----

  /** Every rejection of the guard chain leaves the table as it was. */
  lemma RejectionWritesNothing(rows: map<string, Profile>, sessionId: Option<string>, stripeConfigured: bool,
                               retrieval: Retrieval, listing: UserListing, faults: StoreFaults)
    requires Decide(sessionId, stripeConfigured, retrieval, listing).Reject?
    ensures Outcome(rows, sessionId, stripeConfigured, retrieval, listing, faults).1 == rows
  {
  }

  /** The early rejections, their status codes, and that none of them writes. */
  lemma GuardRejections(rows: map<string, Profile>, sessionId: Option<string>, stripeConfigured: bool,
                        retrieval: Retrieval, listing: UserListing, faults: StoreFaults)
    ensures var o := Outcome(rows, sessionId, stripeConfigured, retrieval, listing, faults);
      && (!Truthy(sessionId) ==> o == (Failure(400, "Session ID required"), rows))
      && (Truthy(sessionId) && !stripeConfigured ==> o == (Failure(503, "Stripe not configured"), rows))
      && (Truthy(sessionId) && stripeConfigured && retrieval.RetrieveFailed?
          ==> o == (Failure(500, Or(retrieval.message, "Failed to verify checkout")), rows))
      && (Truthy(sessionId) && stripeConfigured && retrieval.Retrieved? && retrieval.session.paymentStatus != "paid"
          ==> o == (Failure(400, "Payment not completed"), rows))
      && (PaidSession(sessionId, stripeConfigured, retrieval) && SessionEmail(retrieval.session).None?
          ==> o == (Failure(400, "No email found in session"), rows))
      && (PaidSession(sessionId, stripeConfigured, retrieval) && SessionEmail(retrieval.session).Some? && listing.Listed?
          && FindByEmail(listing.users, SessionEmail(retrieval.session).value).None?
          ==> o == (Failure(404, "User not found"), rows))
      && (PaidSession(sessionId, stripeConfigured, retrieval) && SessionEmail(retrieval.session).Some? && listing.ListFailed?
          ==> o == (Failure(500, "Failed to find user"), rows))
  {
  }

  /** Any purchase type other than "topup", absent included, is a subscription. */
  lemma NonTopUpIsSubscription(sessionId: Option<string>, stripeConfigured: bool, retrieval: Retrieval, listing: UserListing)
    requires !Decide(sessionId, stripeConfigured, retrieval, listing).Reject?
    ensures Decide(sessionId, stripeConfigured, retrieval, listing).Subscribe? <==>
      retrieval.session.metadata.purchaseType != Some("topup")
  {
  }

  /**
   * Top-up path: `extra_minutes` becomes the value read (0 when the row is
   * missing or the read fails) plus the purchased minutes; no other column
   * and no other row is written; the response reports the new value.
   */
  lemma TopUpEffect(rows: map<string, Profile>, sessionId: Option<string>, stripeConfigured: bool,
                    retrieval: Retrieval, listing: UserListing, faults: StoreFaults)
    requires Decide(sessionId, stripeConfigured, retrieval, listing).TopUp?
    requires !faults.updateFails
    ensures var d := Decide(sessionId, stripeConfigured, retrieval, listing);
      var total := CurrentExtra(rows, d.userId, faults.readFails) + d.minutes;
      && d.minutes == retrieval.session.metadata.minutes.GetOr(0)
      && Outcome(rows, sessionId, stripeConfigured, retrieval, listing, faults).0 == TopUpDone(d.minutes, total)
      && Outcome(rows, sessionId, stripeConfigured, retrieval, listing, faults).1 ==
         (if d.userId in rows then rows[d.userId := rows[d.userId].(extraMinutes := total)] else rows)
  {
  }

  /**
   * Nothing records which sessions were processed: verifying the same paid
   * top-up session twice adds its minutes twice.
   */
  lemma TopUpTwiceAddsTwice(rows: map<string, Profile>, sessionId: Option<string>, stripeConfigured: bool,
                            retrieval: Retrieval, listing: UserListing)
    requires Decide(sessionId, stripeConfigured, retrieval, listing).TopUp?
    requires Decide(sessionId, stripeConfigured, retrieval, listing).userId in rows
    ensures var d := Decide(sessionId, stripeConfigured, retrieval, listing);
      var ok := StoreFaults(false, false);
      var once := Outcome(rows, sessionId, stripeConfigured, retrieval, listing, ok).1;
      var twice := Outcome(once, sessionId, stripeConfigured, retrieval, listing, ok).1;
      twice[d.userId].extraMinutes == rows[d.userId].extraMinutes + 2 * d.minutes
  {
  }

  /**
   * A failed read is not noticed: the balance written is the purchased
   * minutes alone, and what the row held before is lost.
   */
  lemma TopUpAfterFailedReadOverwrites(rows: map<string, Profile>, sessionId: Option<string>, stripeConfigured: bool,
                                       retrieval: Retrieval, listing: UserListing)
    requires Decide(sessionId, stripeConfigured, retrieval, listing).TopUp?
    requires Decide(sessionId, stripeConfigured, retrieval, listing).userId in rows
    ensures var d := Decide(sessionId, stripeConfigured, retrieval, listing);
      Outcome(rows, sessionId, stripeConfigured, retrieval, listing, StoreFaults(true, false)).1[d.userId].extraMinutes == d.minutes
  {
  }

  /**
   * Subscription path: plan, status `active`, period (default "monthly"),
   * the limit from the minutes map and a zero usage count are written;
   * `extra_minutes` and the Stripe references are left alone. An absent
   * plan id leaves the plan column as it was.
   */
  lemma SubscriptionEffect(rows: map<string, Profile>, sessionId: Option<string>, stripeConfigured: bool,
                           retrieval: Retrieval, listing: UserListing, faults: StoreFaults)
    requires Decide(sessionId, stripeConfigured, retrieval, listing).Subscribe?
    requires !faults.updateFails
    ensures var d := Decide(sessionId, stripeConfigured, retrieval, listing);
      var meta := retrieval.session.metadata;
      var o := Outcome(rows, sessionId, stripeConfigured, retrieval, listing, faults);
      && d.plan == meta.planId
      && d.billingPeriod == Or(meta.billingPeriod, "monthly")
      && o.0 == SubscriptionDone(meta.planId, d.billingPeriod)
      && (d.userId in rows ==>
           var before := rows[d.userId];
           o.1 == rows[d.userId := before.(
             subscriptionPlan := meta.planId.GetOr(before.subscriptionPlan),
             subscriptionStatus := Active,
             subscriptionPeriod := Some(d.billingPeriod),
             listeningMinutesLimit := MinutesLimit(meta.planId),
             listeningMinutesUsed := 0)])
  {
  }

  /** Top-up minutes are not checked: a negative count lowers the balance below zero. */
  lemma TopUpCanGoNegative()
    ensures var users := [AuthUser("u1", Some("a@b.c"))];
      var row := Profile("u1", Some("a@b.c"), None, None, None, None, None, "free", Active, None, 0, 5, 0,
                         None, None, "", "", None, None);
      var session := Session("paid", Some("a@b.c"), None, Metadata(Some("topup"), None, None, Some(-10)));
      Outcome(map["u1" := row], Some("cs_1"), true, Retrieved(session), Listed(users), StoreFaults(false, false)).1["u1"].extraMinutes == -10
  {
  }
}
