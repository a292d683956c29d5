/**
 * POST /api/plugin/auth/exchange-token: a plugin trades a one-time token for
 * the user's profile and a summary of the minutes left. The `auth_tokens`
 * table is updated in place: an expired row is deleted, a good one is
 * marked used.
 */
module PluginExchange {
  import opened Wrappers
  import opened Text
  import opened Profiles

  /** One row of `auth_tokens`; `expiresAt` is a time in the same unit as `now`. */
  datatype AuthToken = AuthToken(id: string, token: string, userId: string, expiresAt: int, used: bool)

  /** The `token` field of the request body. */
  datatype TokenField = Missing | NotAString | Text(value: string)

  /** `token.startsWith("plt_") && token.length === 68` */
  predicate WellFormed(t: string) {
    StartsWith(t, "plt_") && |t| == 68
  }

  /** The `minutes` object of the response. */
  datatype MinutesSummary = MinutesSummary(
    subscriptionLimit: int,
    subscriptionUsed: int,
    subscriptionRemaining: int,
    topupBalance: int,
    totalAvailable: int)

  /** Lines 132-137 and 157-161, from one profile row. */
  function Summary(p: Profile): (s: MinutesSummary)
    ensures s.subscriptionLimit == p.listeningMinutesLimit && s.subscriptionUsed == p.listeningMinutesUsed
    ensures s.subscriptionRemaining >= 0
    ensures s.subscriptionRemaining >= s.subscriptionLimit - s.subscriptionUsed
    ensures s.subscriptionRemaining == 0 || s.subscriptionRemaining == s.subscriptionLimit - s.subscriptionUsed
    ensures s.topupBalance == p.topupMinutes.GetOr(0)
    ensures s.totalAvailable == s.subscriptionRemaining + s.topupBalance
    ensures s.topupBalance >= 0 ==> s.totalAvailable >= 0
  {
    var limit := p.listeningMinutesLimit;
    var used := p.listeningMinutesUsed;
    var remaining := if limit - used > 0 then limit - used else 0;
    var topup := p.topupMinutes.GetOr(0);
    MinutesSummary(limit, used, remaining, topup, remaining + topup)
  }

  datatype PluginUser = PluginUser(
    id: string, email: Option<string>, fullName: Option<string>, avatarUrl: Option<string>,
    company: Option<string>, jobTitle: Option<string>, createdAt: string)

  datatype Response =
    | Rejected(status: int, error: string)
    | Exchanged(user: PluginUser, plan: string, subscriptionStatus: Status, period: string,
                minutes: MinutesSummary, apiKey: Option<string>)

  /** The success body for a profile row. */
  function Granted(p: Profile): (r: Response)
    ensures r.Exchanged? && r.user.id == p.id && r.plan == p.subscriptionPlan && r.subscriptionStatus == p.subscriptionStatus
    ensures r.period == Or(p.subscriptionPeriod, "monthly")
    ensures r.minutes == Summary(p)
    ensures Truthy(p.apiKey) ==> r.apiKey == p.apiKey
    ensures !Truthy(p.apiKey) ==> r.apiKey.None?
  {
    Exchanged(PluginUser(p.id, p.email, p.fullName, p.avatarUrl, p.company, p.jobTitle, p.createdAt),
              p.subscriptionPlan, p.subscriptionStatus, Or(p.subscriptionPeriod, "monthly"),
              Summary(p), if Truthy(p.apiKey) then p.apiKey else None)
  }

  /** The token ids whose `token` column is `t`. */
  function RowsWithToken(rows: map<string, AuthToken>, t: string): (m: set<string>)
    ensures forall k :: k in m <==> k in rows && rows[k].token == t
  {
    set k | k in rows && rows[k].token == t
  }

  /** What the checks of lines 39-88 decide. */
  datatype Step =
    | Refuse(status: int, error: string)
    | Expire(id: string)
    | Consume(id: string, userId: string)

  const ExpiredMessage := "Token has expired. Please generate a new one."
  const UsedMessage := "Token has already been used. Please generate a new one."

  ghost function Check(rows: map<string, AuthToken>, body: TokenField, now: int): (s: Step)
    ensures s.Expire? ==> s.id in rows && rows[s.id].expiresAt < now
    ensures s.Consume? ==> s.id in rows && !rows[s.id].used && now <= rows[s.id].expiresAt && rows[s.id].userId == s.userId
    ensures !s.Refuse? ==> body.Text? && WellFormed(body.value) && RowsWithToken(rows, body.value) == {s.id}
  {
    if body.Missing? || body.NotAString? || body.value == "" then Refuse(400, "Missing or invalid token")
    else if !WellFormed(body.value) then Refuse(400, "Invalid token format")
    else
      match SingleMatch(RowsWithToken(rows, body.value))
      case None => Refuse(401, "Invalid or expired token")
      case Some(id) =>
        var row := rows[id];
        if row.expiresAt < now then Expire(id)
        else if row.used then Refuse(401, UsedMessage)
        else Consume(id, row.userId)
  }

  /** The token table after the request. */
  ghost function NewRows(rows: map<string, AuthToken>, body: TokenField, now: int): (r: map<string, AuthToken>)
  {
    match Check(rows, body, now)
    case Refuse(_, _) => rows
    case Expire(id) => rows - {id}
    case Consume(id, _) => rows[id := rows[id].(used := true)]
  }

  /** The response to the request. */
  ghost function Reply(rows: map<string, AuthToken>, body: TokenField, now: int, profiles: map<string, Profile>): (r: Response)
  {
    match Check(rows, body, now)
    case Refuse(status, error) => Rejected(status, error)
    case Expire(_) => Rejected(401, ExpiredMessage)
    case Consume(_, userId) =>
      if userId in profiles then Granted(profiles[userId]) else Rejected(404, "User profile not found")
  }

  class TokenTable {
    var rows: map<string, AuthToken>

    /** Rows are keyed by their `id`. */
    ghost predicate Valid()
      reads this
    {
      forall k :: k in rows ==> rows[k].id == k
    }

    constructor (initial: map<string, AuthToken>)
      requires forall k :: k in initial ==> initial[k].id == k
      ensures Valid() && rows == initial
    {
      rows := initial;
    }

    /**
     * The route. `profiles` is the profiles table as the lookup by
     * `user_id` sees it; `now` is the clock.
     */
    method Exchange(body: TokenField, now: int, profiles: map<string, Profile>) returns (resp: Response)
      requires Valid()
      modifies this
      ensures Valid()
      ensures rows == NewRows(old(rows), body, now)
      ensures resp == Reply(old(rows), body, now, profiles)
    {
      if body.Missing? || body.NotAString? || body.value == "" {
        return Rejected(400, "Missing or invalid token");
      }
      var t := body.value;
      if !WellFormed(t) {
        return Rejected(400, "Invalid token format");
      }
      var matches := set k | k in rows && rows[k].token == t;
      if |matches| != 1 {
        return Rejected(401, "Invalid or expired token");
      }
      var id :| id in matches;
      ghost var single := SingleMatch(RowsWithToken(rows, t));
      assert single == Some(id);
      var row := rows[id];
      if row.expiresAt < now {
        rows := rows - {id};
        return Rejected(401, ExpiredMessage);
      }
      if row.used {
        return Rejected(401, UsedMessage);
      }
      rows := rows[id := row.(used := true)];
      if row.userId in profiles {
        resp := Granted(profiles[row.userId]);
      } else {
        resp := Rejected(404, "User profile not found");
      }
    }
  }

  // ---- Properties of the route ----

  /** A missing, non-string or empty token is refused with 400 and changes nothing. */
  lemma MissingTokenRefused(rows: map<string, AuthToken>, body: TokenField, now: int, profiles: map<string, Profile>)
    requires body.Missing? || body.NotAString? || body == Text("")
    ensures Reply(rows, body, now, profiles) == Rejected(400, "Missing or invalid token")
    ensures NewRows(rows, body, now) == rows
  {
  }

  /** A non-empty token passes the format check iff it has the prefix and 68 characters. */
  lemma FormatCheck(rows: map<string, AuthToken>, t: string, now: int, profiles: map<string, Profile>)
    requires t != ""
    ensures Reply(rows, Text(t), now, profiles) == Rejected(400, "Invalid token format") <==> !WellFormed(t)
    ensures !WellFormed(t) ==> NewRows(rows, Text(t), now) == rows
  {
  }

  /** A well-formed token that no row (or more than one) holds is refused with 401. */
  lemma UnknownTokenRefused(rows: map<string, AuthToken>, t: string, now: int, profiles: map<string, Profile>)
    requires WellFormed(t) && |RowsWithToken(rows, t)| != 1
    ensures Reply(rows, Text(t), now, profiles) == Rejected(401, "Invalid or expired token")
    ensures NewRows(rows, Text(t), now) == rows
  {
  }

  /**
   * Expiry is checked first and strictly: a row whose time has passed is
   * deleted, used or not, and the request is refused.
   */
  lemma ExpiredTokenDeleted(rows: map<string, AuthToken>, id: string, now: int, profiles: map<string, Profile>)
    requires id in rows && WellFormed(rows[id].token)
    requires RowsWithToken(rows, rows[id].token) == {id}
    requires rows[id].expiresAt < now
    ensures Reply(rows, Text(rows[id].token), now, profiles) == Rejected(401, ExpiredMessage)
    ensures NewRows(rows, Text(rows[id].token), now) == rows - {id}
  {
  }

  /** A used row that has not expired is refused and the table is unchanged. */
  lemma UsedTokenRefused(rows: map<string, AuthToken>, id: string, now: int, profiles: map<string, Profile>)
    requires id in rows && WellFormed(rows[id].token)
    requires RowsWithToken(rows, rows[id].token) == {id}
    requires now <= rows[id].expiresAt && rows[id].used
    ensures Reply(rows, Text(rows[id].token), now, profiles) == Rejected(401, UsedMessage)
    ensures NewRows(rows, Text(rows[id].token), now) == rows
  {
  }

  /** Marking a row used leaves the set of rows holding each token as it was. */
  lemma MarkUsedKeepsTokens(rows: map<string, AuthToken>, id: string, t: string)
    requires id in rows
    ensures RowsWithToken(rows[id := rows[id].(used := true)], t) == RowsWithToken(rows, t)
  {
  }

  /**
   * The accepting path: a well-formed token that exactly one row holds, not
   * expired and not used, is marked used, and the reply is the profile of
   * its user, or 404 when that user has no profile.
   */
  lemma FreshTokenConsumed(rows: map<string, AuthToken>, id: string, now: int, profiles: map<string, Profile>)
    requires id in rows && WellFormed(rows[id].token)
    requires RowsWithToken(rows, rows[id].token) == {id}
    requires now <= rows[id].expiresAt && !rows[id].used
    ensures Check(rows, Text(rows[id].token), now) == Consume(id, rows[id].userId)
    ensures NewRows(rows, Text(rows[id].token), now) == rows[id := rows[id].(used := true)]
    ensures Reply(rows, Text(rows[id].token), now, profiles) ==
      (if rows[id].userId in profiles then Granted(profiles[rows[id].userId]) else Rejected(404, "User profile not found"))
  {
    assert SingleMatch(RowsWithToken(rows, rows[id].token)) == Some(id);
  }

  /**
   * The row is marked used before the profile is looked up, so a token is
   * good for one exchange only: after a fresh token has been accepted, a
   * second request with it is refused with 401 at any later time, even when
   * the first ended with 404.
   */
  lemma {:induction false} SecondExchangeRefused(rows: map<string, AuthToken>, id: string, now: int, later: int,
                                                 profiles: map<string, Profile>, laterProfiles: map<string, Profile>)
    requires id in rows && WellFormed(rows[id].token)
    requires RowsWithToken(rows, rows[id].token) == {id}
    requires now <= rows[id].expiresAt && !rows[id].used
    ensures Reply(NewRows(rows, Text(rows[id].token), now), Text(rows[id].token), later, laterProfiles).Rejected?
    ensures Reply(NewRows(rows, Text(rows[id].token), now), Text(rows[id].token), later, laterProfiles).status == 401
  {
    var t := rows[id].token;
    FreshTokenConsumed(rows, id, now, profiles);
    var after := NewRows(rows, Text(t), now);
    assert after == rows[id := rows[id].(used := true)];
    MarkUsedKeepsTokens(rows, id, t);
    assert RowsWithToken(after, t) == {id};
    assert SingleMatch(RowsWithToken(after, t)) == Some(id);
    assert after[id].used;
  }

  /** The remaining subscription minutes are never negative, also for the "unlimited" limit -1. */
  lemma UnlimitedShowsNothingRemaining(p: Profile)
    requires p.listeningMinutesLimit == -1 && p.listeningMinutesUsed >= 0
    ensures Summary(p).subscriptionRemaining == 0
    ensures Summary(p).totalAvailable == p.topupMinutes.GetOr(0)
  {
  }
}
