/**
 * POST /api/stripe-webhook: a signature gate, then a switch over the event
 * type that turns checkout completion and subscription changes into one
 * profile update.
 */
module StripeWebhook {
  import opened Wrappers
  import opened Text
  import opened Profiles

  /** The fields of a completed checkout session the route reads. */
  datatype CheckoutSession = CheckoutSession(
    id: string,
    customerEmail: Option<string>,
    detailsEmail: Option<string>,
    planId: Option<string>,
    customer: Option<string>,
    subscription: Option<string>)

  /** The fields of a subscription object the route reads; `status` is Stripe's own. */
  datatype Subscription = Subscription(customer: string, status: string, planId: Option<string>)

  /**
   * A verified event, by its `type`: the three types the switch handles,
   * and `Unhandled` for an event of any other type.
   */
  datatype Event =
    | CheckoutSessionCompleted(session: CheckoutSession)
    | CustomerSubscriptionUpdated(subscription: Subscription)
    | CustomerSubscriptionDeleted(subscription: Subscription)
    | Unhandled

  /** What the switch asks the store to do: find the row, then patch it. */
  datatype Action =
    | NoWrite
    | UpdateUserWithEmail(email: string, patch: ProfilePatch)
    | UpdateCustomerRow(customerId: string, patch: ProfilePatch)

  /** 400, `{ received: true }`, or the 500 of an exception outside any `try`. */
  datatype Response = InvalidSignature | Received | ServerError

  /** The `switch (event.type)` of lines 33-111, before any lookup. */
  function Handle(e: Event): (a: Action)
    ensures !a.NoWrite? ==> a.patch.KeepsMinutes()
    ensures !a.NoWrite? ==> a.patch.subscriptionPeriod.None?
    ensures a.UpdateUserWithEmail? <==>
      e.CheckoutSessionCompleted? && Truthy(OrElse(e.session.customerEmail, e.session.detailsEmail)) && Truthy(e.session.planId)
    ensures a.UpdateCustomerRow? <==> e.CustomerSubscriptionUpdated? || e.CustomerSubscriptionDeleted?
  {
    match e
    case CheckoutSessionCompleted(s) =>
      var email := OrElse(s.customerEmail, s.detailsEmail);
      if !Truthy(email) || !Truthy(s.planId) then NoWrite
      else UpdateUserWithEmail(email.value, EmptyPatch.(
        subscriptionPlan := s.planId,
        subscriptionStatus := Some(Active),
        stripeCustomerId := Some(s.customer),
        stripeSubscriptionId := Some(s.subscription)))
    case CustomerSubscriptionUpdated(sub) =>
      UpdateCustomerRow(sub.customer, EmptyPatch.(
        subscriptionStatus := Some(Active),
        subscriptionPlan := Some(Or(sub.planId, "free"))))
    case CustomerSubscriptionDeleted(sub) =>
      UpdateCustomerRow(sub.customer, EmptyPatch.(
        subscriptionStatus := Some(Cancelled),
        subscriptionPlan := Some("free")))
    case Unhandled => NoWrite
  }

  /** The row an action's lookup selects, if any. */
  ghost function Target(rows: map<string, Profile>, users: seq<AuthUser>, a: Action): (t: Option<string>)
    ensures a.NoWrite? ==> t.None?
  {
    match a
    case NoWrite => None
    case UpdateUserWithEmail(email, _) =>
      (match FindByEmail(users, email)
       case None => None
       case Some(u) => Some(u.id))
    case UpdateCustomerRow(customer, _) => SingleMatch(CustomerRows(rows, customer))
  }

  /** The table after one delivery. */
  ghost function NewRows(rows: map<string, Profile>, signatureValid: bool, e: Event,
                         users: seq<AuthUser>, updateFails: bool): (r: map<string, Profile>)
    ensures r.Keys == rows.Keys
  {
    var a := Handle(e);
    var t := Target(rows, users, a);
    if !signatureValid || t.None? || updateFails then rows
    else PatchRow(rows, t.value, a.patch)
  }

  /**
   * The route as written. `listUsers` answers `{ data: { users } }`; the
   * route destructures `user` from it (line 49), gets `undefined`, and
   * `existingUser.find` (line 50) throws. The throw happens outside any
   * `try`, so every completion that carries an email and a plan id is
   * answered with a 500, before any write.
   */
  ghost function AsWritten(rows: map<string, Profile>, signatureValid: bool, e: Event,
                           users: seq<AuthUser>, updateFails: bool): (out: (Response, map<string, Profile>))
    ensures out.0 == InvalidSignature <==> !signatureValid
    ensures out.0 == ServerError <==> signatureValid && Handle(e).UpdateUserWithEmail?
    ensures out.0 != Received ==> out.1 == rows
    ensures out.1.Keys == rows.Keys
  {
    if !signatureValid then (InvalidSignature, rows)
    else if Handle(e).UpdateUserWithEmail? then (ServerError, rows)
    else (Received, NewRows(rows, signatureValid, e, users, updateFails))
  }

  /**
   * The route with the evidently intended lookup: the email is searched in
   * `users`, the identity provider's user list. A profile update that fails is logged and the delivery is
   * still acknowledged.
   */
  method Webhook(table: ProfilesTable, signatureValid: bool, e: Event, users: seq<AuthUser>, updateFails: bool)
    returns (resp: Response)
    requires table.Valid()
    modifies table
    ensures table.Valid()
    ensures resp == (if signatureValid then Received else InvalidSignature)
    ensures table.rows == NewRows(old(table.rows), signatureValid, e, users, updateFails)
  {
    if !signatureValid {
      return InvalidSignature;
    }
    var a := Handle(e);
    var target: Option<string> := None;
    match a {
      case NoWrite =>
      case UpdateUserWithEmail(email, _) =>
        var user := FindByEmail(users, email);
        if user.Some? {
          target := Some(user.value.id);
        }
      case UpdateCustomerRow(customer, _) =>
        target := table.FindByCustomer(customer);
    }
    if target.Some? && !updateFails {
      table.UpdateById(target.value, a.patch);
    }
    resp := Received;
  }

  // ---- Properties of the route ----

  /** A failed signature check handles no event. */
  lemma InvalidSignatureWritesNothing(rows: map<string, Profile>, e: Event, users: seq<AuthUser>, updateFails: bool)
    ensures NewRows(rows, false, e, users, updateFails) == rows
  {
  }

  /** Checkout completion without a truthy email or plan id writes nothing. */
  lemma CompletedWithoutEmailOrPlanWritesNothing(rows: map<string, Profile>, s: CheckoutSession, users: seq<AuthUser>, updateFails: bool)
    requires !Truthy(OrElse(s.customerEmail, s.detailsEmail)) || !Truthy(s.planId)
    ensures NewRows(rows, true, CheckoutSessionCompleted(s), users, updateFails) == rows
  {
  }

  /**
   * Checkout completion for a known user sets plan and status and stores
   * both Stripe references, and nothing else: period and limit stay.
   */
  lemma CompletedActivates(rows: map<string, Profile>, s: CheckoutSession, users: seq<AuthUser>, u: AuthUser)
    requires Truthy(OrElse(s.customerEmail, s.detailsEmail)) && Truthy(s.planId)
    requires FindByEmail(users, OrElse(s.customerEmail, s.detailsEmail).value) == Some(u) && u.id in rows
    ensures NewRows(rows, true, CheckoutSessionCompleted(s), users, false) ==
      rows[u.id := rows[u.id].(
        subscriptionPlan := s.planId.value,
        subscriptionStatus := Active,
        stripeCustomerId := s.customer,
        stripeSubscriptionId := s.subscription)]
  {
  }

  /** Deletion downgrades the one row of that customer to a cancelled free plan. */
  lemma DeletedDowngrades(rows: map<string, Profile>, sub: Subscription, users: seq<AuthUser>, id: string)
    requires CustomerRows(rows, sub.customer) == {id}
    ensures NewRows(rows, true, CustomerSubscriptionDeleted(sub), users, false) ==
      rows[id := rows[id].(subscriptionStatus := Cancelled, subscriptionPlan := "free")]
  {
  }

  /**
   * An update always activates, whatever Stripe's own status says
   * (`past_due`, `canceled`, ...); the plan is the metadata plan id or "free".
   */
  lemma UpdatedAlwaysActivates(rows: map<string, Profile>, sub: Subscription, users: seq<AuthUser>, id: string)
    requires CustomerRows(rows, sub.customer) == {id}
    ensures NewRows(rows, true, CustomerSubscriptionUpdated(sub), users, false) ==
      rows[id := rows[id].(subscriptionStatus := Active, subscriptionPlan := Or(sub.planId, "free"))]
  {
  }

  /**
   * A subscription event whose customer id matches no row, or more than one
   * (`.single()` fails), writes nothing.
   */
  lemma UnmatchedCustomerWritesNothing(rows: map<string, Profile>, e: Event, users: seq<AuthUser>, updateFails: bool)
    requires e.CustomerSubscriptionUpdated? || e.CustomerSubscriptionDeleted?
    requires |CustomerRows(rows, e.subscription.customer)| != 1
    ensures NewRows(rows, true, e, users, updateFails) == rows
  {
  }

  /** Unhandled event types change nothing. */
  lemma UnhandledWritesNothing(rows: map<string, Profile>, users: seq<AuthUser>, updateFails: bool)
    ensures NewRows(rows, true, Unhandled, users, updateFails) == rows
  {
  }

  /** No delivery writes a minute counter of any row. */
  lemma {:induction false} NeverTouchesMinutes(rows: map<string, Profile>, signatureValid: bool, e: Event,
                                               users: seq<AuthUser>, updateFails: bool, k: string)
    requires k in rows
    ensures var r := NewRows(rows, signatureValid, e, users, updateFails);
      && k in r
      && r[k].listeningMinutesUsed == rows[k].listeningMinutesUsed
      && r[k].listeningMinutesLimit == rows[k].listeningMinutesLimit
      && r[k].extraMinutes == rows[k].extraMinutes
  {
    var a := Handle(e);
    var t := Target(rows, users, a);
    if signatureValid && t.Some? && !updateFails {
      PatchRowKeepsMinutes(rows, t.value, a.patch, k);
    }
  }

  /**
   * As written, a checkout completion for a known user whose plan is not yet
   * active fails with a 500 and leaves the table as it was; with the
   * intended lookup the same delivery is acknowledged and activates the
   * plan.
   */
  lemma {:induction false} CompletionFailsAsWritten(rows: map<string, Profile>, s: CheckoutSession, users: seq<AuthUser>, u: AuthUser)
    requires Truthy(OrElse(s.customerEmail, s.detailsEmail)) && Truthy(s.planId)
    requires FindByEmail(users, OrElse(s.customerEmail, s.detailsEmail).value) == Some(u) && u.id in rows
    requires rows[u.id].subscriptionStatus != Active
    ensures AsWritten(rows, true, CheckoutSessionCompleted(s), users, false) == (ServerError, rows)
    ensures NewRows(rows, true, CheckoutSessionCompleted(s), users, false) != rows
  {
    CompletedActivates(rows, s, users, u);
    var after := NewRows(rows, true, CheckoutSessionCompleted(s), users, false);
    assert after[u.id].subscriptionStatus == Active;
  }
}
