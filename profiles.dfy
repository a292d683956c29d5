/**
 * The `profiles` row (lib/supabase/database.types.ts), the partial updates
 * the routes send (`Update: Partial<Profile>`), the table they update by row
 * id, and the identity provider's user list they search by email.
 */
module Profiles {
  import opened Wrappers

  datatype Status = Active | Cancelled | PastDue

  /**
   * One row of `profiles`. `subscriptionPlan` is a plain string: the type file
   * admits only DeclaredPlans, but the routes write whatever plan id a
   * payment session's metadata carries. `topupMinutes` and `apiKey` are the
   * two columns the plugin route selects that the type file does not have.
   */
  datatype Profile = Profile(
    id: string,
    email: Option<string>,
    fullName: Option<string>,
    avatarUrl: Option<string>,
    phone: Option<string>,
    company: Option<string>,
    jobTitle: Option<string>,
    subscriptionPlan: string,
    subscriptionStatus: Status,
    subscriptionPeriod: Option<string>,
    listeningMinutesUsed: int,
    listeningMinutesLimit: int,
    extraMinutes: int,
    stripeCustomerId: Option<string>,
    stripeSubscriptionId: Option<string>,
    createdAt: string,
    updatedAt: string,
    topupMinutes: Option<int>,
    apiKey: Option<string>)

  /** The plan ids the row type declares. */
  const DeclaredPlans: set<string> := {"free", "economy", "pro", "master"}

  /**
   * A partial update: `None` leaves the column alone (a key that is absent,
   * or whose value is `undefined` and is dropped when the update is sent as
   * JSON). The two Stripe reference columns take a nullable value.
   */
  datatype ProfilePatch = ProfilePatch(
    subscriptionPlan: Option<string>,
    subscriptionStatus: Option<Status>,
    subscriptionPeriod: Option<string>,
    listeningMinutesUsed: Option<int>,
    listeningMinutesLimit: Option<int>,
    extraMinutes: Option<int>,
    stripeCustomerId: Option<Option<string>>,
    stripeSubscriptionId: Option<Option<string>>)
  {
    /** The patch names none of the three minute counters. */
    predicate KeepsMinutes() {
      listeningMinutesUsed.None? && listeningMinutesLimit.None? && extraMinutes.None?
    }
  }

  const EmptyPatch := ProfilePatch(None, None, None, None, None, None, None, None)

  /**
   * Each of the eight updatable columns of `q` holds the patch's value when
   * the patch names that column, and `p`'s value when it does not.
   */
  predicate FollowsPatch(p: Profile, patch: ProfilePatch, q: Profile) {
    && q.subscriptionPlan == (if patch.subscriptionPlan.Some? then patch.subscriptionPlan.value else p.subscriptionPlan)
    && q.subscriptionStatus == (if patch.subscriptionStatus.Some? then patch.subscriptionStatus.value else p.subscriptionStatus)
    && q.subscriptionPeriod == (if patch.subscriptionPeriod.Some? then patch.subscriptionPeriod else p.subscriptionPeriod)
    && q.listeningMinutesUsed == (if patch.listeningMinutesUsed.Some? then patch.listeningMinutesUsed.value else p.listeningMinutesUsed)
    && q.listeningMinutesLimit == (if patch.listeningMinutesLimit.Some? then patch.listeningMinutesLimit.value else p.listeningMinutesLimit)
    && q.extraMinutes == (if patch.extraMinutes.Some? then patch.extraMinutes.value else p.extraMinutes)
    && q.stripeCustomerId == (if patch.stripeCustomerId.Some? then patch.stripeCustomerId.value else p.stripeCustomerId)
    && q.stripeSubscriptionId == (if patch.stripeSubscriptionId.Some? then patch.stripeSubscriptionId.value else p.stripeSubscriptionId)
  }

  /** The row after `update(patch)`. */
  function Apply(p: Profile, patch: ProfilePatch): (q: Profile)
    ensures q.id == p.id && q.email == p.email && q.fullName == p.fullName
    ensures q.avatarUrl == p.avatarUrl && q.phone == p.phone && q.company == p.company
    ensures q.jobTitle == p.jobTitle && q.createdAt == p.createdAt && q.updatedAt == p.updatedAt
    ensures q.topupMinutes == p.topupMinutes && q.apiKey == p.apiKey
    ensures FollowsPatch(p, patch, q)
    ensures patch.KeepsMinutes() ==>
      q.listeningMinutesUsed == p.listeningMinutesUsed &&
      q.listeningMinutesLimit == p.listeningMinutesLimit &&
      q.extraMinutes == p.extraMinutes
    ensures patch == EmptyPatch ==> q == p
  {
    p.(subscriptionPlan := patch.subscriptionPlan.GetOr(p.subscriptionPlan),
       subscriptionStatus := patch.subscriptionStatus.GetOr(p.subscriptionStatus),
       subscriptionPeriod := if patch.subscriptionPeriod.Some? then patch.subscriptionPeriod else p.subscriptionPeriod,
       listeningMinutesUsed := patch.listeningMinutesUsed.GetOr(p.listeningMinutesUsed),
       listeningMinutesLimit := patch.listeningMinutesLimit.GetOr(p.listeningMinutesLimit),
       extraMinutes := patch.extraMinutes.GetOr(p.extraMinutes),
       stripeCustomerId := patch.stripeCustomerId.GetOr(p.stripeCustomerId),
       stripeSubscriptionId := patch.stripeSubscriptionId.GetOr(p.stripeSubscriptionId))
  }

  /** The rows are keyed by their own `id`. */
  ghost predicate KeyedById(rows: map<string, Profile>) {
    forall k :: k in rows ==> rows[k].id == k
  }

  /**
   * `update(patch).eq('id', id)`: the row with that id, if there is one, is
   * patched; no row matching is not an error and changes nothing.
   */
  function PatchRow(rows: map<string, Profile>, id: string, patch: ProfilePatch): (r: map<string, Profile>)
    ensures r.Keys == rows.Keys
    ensures forall k :: k in rows && k != id ==> r[k] == rows[k]
    ensures id in rows ==> r[id] == Apply(rows[id], patch)
    ensures KeyedById(rows) ==> KeyedById(r)
  {
    if id in rows then rows[id := Apply(rows[id], patch)] else rows
  }

  /** A patch that names no minute counter leaves every row's counters alone. */
  lemma PatchRowKeepsMinutes(rows: map<string, Profile>, id: string, patch: ProfilePatch, k: string)
    requires patch.KeepsMinutes() && k in rows
    ensures k in PatchRow(rows, id, patch)
    ensures PatchRow(rows, id, patch)[k].listeningMinutesUsed == rows[k].listeningMinutesUsed
    ensures PatchRow(rows, id, patch)[k].listeningMinutesLimit == rows[k].listeningMinutesLimit
    ensures PatchRow(rows, id, patch)[k].extraMinutes == rows[k].extraMinutes
  {
  }

  /**
   * `.single()` over the keys a filter matched: the one key when exactly
   * one row matched, nothing when none or several did.
   */
  ghost function SingleMatch(m: set<string>): (r: Option<string>)
    ensures r.Some? <==> |m| == 1
    ensures r.Some? ==> m == {r.value}
  {
    if |m| == 1 then
      var k :| k in m;
      assert |m - {k}| == 0;
      assert m - {k} == {};
      Some(k)
    else None
  }

  /** A user of the identity provider. */
  datatype AuthUser = AuthUser(id: string, email: Option<string>)

  /** `users[i]` is the first user whose email is `email`. */
  ghost predicate FirstWithEmail(users: seq<AuthUser>, email: string, i: int) {
    0 <= i < |users| && users[i].email == Some(email) &&
    forall j :: 0 <= j < i ==> users[j].email != Some(email)
  }

  /** `users.find(u => u.email === email)`: the first user with that email. */
  function FindByEmail(users: seq<AuthUser>, email: string): (r: Option<AuthUser>)
    ensures r.None? <==> forall i :: 0 <= i < |users| ==> users[i].email != Some(email)
    ensures r.Some? ==> r.value.email == Some(email)
    ensures r.Some? ==> exists i :: FirstWithEmail(users, email, i) && users[i] == r.value
  {
    if users == [] then None
    else if users[0].email == Some(email) then Some(users[0])
    else
      var r := FindByEmail(users[1..], email);
      r
  }

  /** The table of profile rows, updated in place by the routes. */
  class ProfilesTable {
    var rows: map<string, Profile>

    ghost predicate Valid()
      reads this
    {
      KeyedById(rows)
    }

    constructor (initial: map<string, Profile>)
      requires KeyedById(initial)
      ensures Valid() && rows == initial
    {
      rows := initial;
    }

    /** `update(patch).eq('id', id)` */
    method UpdateById(id: string, patch: ProfilePatch)
      requires Valid()
      modifies this
      ensures Valid()
      ensures rows == PatchRow(old(rows), id, patch)
    {
      if id in rows {
        rows := rows[id := Apply(rows[id], patch)];
      }
    }

    /** `select('id').eq('stripe_customer_id', customer).single()` */
    method FindByCustomer(customer: string) returns (id: Option<string>)
      requires Valid()
      ensures id == SingleMatch(CustomerRows(rows, customer))
      ensures id.Some? ==> id.value in rows && rows[id.value].stripeCustomerId == Some(customer)
    {
      var m := set k | k in rows && rows[k].stripeCustomerId == Some(customer);
      if |m| == 1 {
        var k :| k in m;
        id := Some(k);
      } else {
        id := None;
      }
    }
  }

  /** The row ids whose `stripe_customer_id` is `customer`. */
  function CustomerRows(rows: map<string, Profile>, customer: string): (m: set<string>)
    ensures forall k :: k in m <==> k in rows && rows[k].stripeCustomerId == Some(customer)
  {
    set k | k in rows && rows[k].stripeCustomerId == Some(customer)
  }
}
