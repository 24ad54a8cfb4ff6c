/**
 * The writing services of client/lib/database.ts over the five tables held
 * in memory: inserts that append a stamped row, updates that overwrite named
 * fields of the rows with a given id, and the sign-up/sign-in sequences of
 * `authService`. A remote error is the input `fail`; the clock reading is the
 * input `now`; ids the database generates are the input `newId`; the answers
 * of the hosted auth service are the input `auth`.
 */
module Database {
  import opened Records
  import Queries

  /** `Omit<User, 'id' | 'created_at' | 'updated_at'>`, what createUser is given. */
  datatype NewUser = NewUser(
    email: string, phone: Option<string>, full_name: string, points: int, member_level: MemberLevel)

  /** `Omit<PointTransaction, 'id' | 'created_at'>`. */
  datatype NewTransaction = NewTransaction(
    user_id: string, points: int, transaction_type: TransactionType,
    description: string, reference_id: Option<string>)

  /** `Omit<RedemptionHistory, 'id' | 'created_at'>`. */
  datatype NewRedemption = NewRedemption(
    user_id: string, reward_id: string, points_used: int,
    status: RedemptionStatus, completed_at: Option<Timestamp>)

  /** The `updateData` object of updateRedemptionStatus. */
  datatype StatusPatch = StatusPatch(status: RedemptionStatus, completed_at: Option<Timestamp>)

  /** What the hosted auth service answers, and what signUp/signIn return. */
  datatype AuthUser = AuthUser(id: string, email: string)
  datatype AuthError = AuthError(message: string)
  datatype AuthResult = AuthResult(user: Option<AuthUser>, error: Option<AuthError>)

  /** The `userData` argument of signUp. */
  datatype Profile = Profile(full_name: string, phone: Option<string>)

  /** The `.update({points, updated_at}).eq('id', userId)` request applied to a table. */
  function SetPoints(rows: seq<User>, userId: string, newPoints: int, now: Timestamp): (r: seq<User>)
    ensures |r| == |rows|
    ensures forall i :: 0 <= i < |r| && rows[i].id == userId ==>
      r[i].points == newPoints && r[i].updated_at == now
    ensures forall i :: 0 <= i < |r| && rows[i].id != userId ==> r[i] == rows[i]
    ensures forall i :: 0 <= i < |r| ==>
      r[i].id == rows[i].id && r[i].email == rows[i].email && r[i].phone == rows[i].phone &&
      r[i].full_name == rows[i].full_name && r[i].member_level == rows[i].member_level &&
      r[i].created_at == rows[i].created_at
  {
    seq(|rows|, i requires 0 <= i < |rows| =>
      if rows[i].id == userId then rows[i].(points := newPoints, updated_at := now) else rows[i])
  }

  /** The patch updateRedemptionStatus sends: the status, and a completion stamp
      exactly when the new status is `completed`. */
  function PatchFor(status: RedemptionStatus, now: Timestamp): (p: StatusPatch)
    ensures p.status == status
    ensures p.completed_at.Some? <==> status == Completed
    ensures p.completed_at.Some? ==> p.completed_at.value == now
  {
    if status == Completed then StatusPatch(status, Some(now)) else StatusPatch(status, None)
  }

  /** A row after a patch: the keys present in the patch overwrite, the rest stay. */
  function Patched(row: RedemptionHistory, p: StatusPatch): RedemptionHistory
  {
    row.(status := p.status, completed_at := if p.completed_at.Some? then p.completed_at else row.completed_at)
  }

  function ApplyPatch(rows: seq<RedemptionHistory>, redemptionId: string, p: StatusPatch)
    : (r: seq<RedemptionHistory>)
    ensures |r| == |rows|
    ensures forall i :: 0 <= i < |r| && rows[i].id != redemptionId ==> r[i] == rows[i]
    ensures forall i :: 0 <= i < |r| && rows[i].id == redemptionId ==> r[i] == Patched(rows[i], p)
  {
    seq(|rows|, i requires 0 <= i < |rows| =>
      if rows[i].id == redemptionId then Patched(rows[i], p) else rows[i])
  }

  /** updateRedemptionStatus on one row: the status is always written, whatever it
      was before; completed_at is stamped iff the new status is `completed`, and
      otherwise kept; no other field changes. */
  lemma StatusUpdateEffect(row: RedemptionHistory, status: RedemptionStatus, now: Timestamp)
    ensures var r := Patched(row, PatchFor(status, now));
      && r.status == status
      && (status == Completed ==> r.completed_at == Some(now))
      && (status != Completed ==> r.completed_at == row.completed_at)
      && r.id == row.id && r.user_id == row.user_id && r.reward_id == row.reward_id
      && r.points_used == row.points_used && r.created_at == row.created_at
  {
  }

  /** The profile signUp inserts for a new account: the account's email, the
      given name and phone, no points and the lowest tier. */
  function ProfileFor(u: AuthUser, profile: Profile): (n: NewUser)
    ensures n.email == u.email && n.full_name == profile.full_name && n.phone == profile.phone
    ensures n.points == 0 && n.member_level == Bronze
  {
    NewUser(u.email, profile.phone, profile.full_name, 0, Bronze)
  }

  /** signIn: the auth error with no user, or the user with no error. */
  function SignIn(auth: AuthResult): (r: AuthResult)
    ensures auth.error.Some? ==> r.user.None? && r.error == auth.error
    ensures auth.error.None? ==> r.user == auth.user && r.error.None?
  {
    if auth.error.Some? then AuthResult(None, auth.error) else AuthResult(auth.user, None)
  }

  /** The hosted tables as the services see them. */
  class Backend {
    var users: seq<User>
    var transactions: seq<PointTransaction>
    var rewards: seq<Reward>
    var redemptions: seq<RedemptionHistory>
    var milestones: seq<Milestone>

    constructor (users: seq<User>, transactions: seq<PointTransaction>, rewards: seq<Reward>,
                 redemptions: seq<RedemptionHistory>, milestones: seq<Milestone>)
      ensures this.users == users && this.transactions == transactions && this.rewards == rewards
      ensures this.redemptions == redemptions && this.milestones == milestones
    {
      this.users := users;
      this.transactions := transactions;
      this.rewards := rewards;
      this.redemptions := redemptions;
      this.milestones := milestones;
    }

    /** userService.updateUserPoints: overwrites points and updated_at of the rows
        with that id (succeeding even when none has it); records no transaction. */
    method UpdateUserPoints(userId: string, newPoints: int, now: Timestamp, fail: bool) returns (ok: bool)
      modifies this
      ensures ok == !fail
      ensures users == if fail then old(users) else SetPoints(old(users), userId, newPoints, now)
      ensures transactions == old(transactions) && rewards == old(rewards)
      ensures redemptions == old(redemptions) && milestones == old(milestones)
    {
      if fail {
        return false;
      }
      users := SetPoints(users, userId, newPoints, now);
      return true;
    }

    /** userService.createUser: appends the row stamped with `now` and returns it,
        or returns null and leaves the table as it was. */
    method CreateUser(data: NewUser, newId: string, now: Timestamp, fail: bool) returns (r: Option<User>)
      modifies this
      ensures fail ==> r.None? && users == old(users)
      ensures !fail ==> r == Some(User(newId, data.email, data.phone, data.full_name, data.points,
                                       data.member_level, now, now))
      ensures !fail ==> users == old(users) + [r.value]
      ensures transactions == old(transactions) && rewards == old(rewards)
      ensures redemptions == old(redemptions) && milestones == old(milestones)
    {
      if fail {
        return None;
      }
      var row := User(newId, data.email, data.phone, data.full_name, data.points,
                      data.member_level, now, now);
      users := users + [row];
      return Some(row);
    }

    /** pointsService.addTransaction: appends the stamped row and returns it, or null. */
    method AddTransaction(t: NewTransaction, newId: string, now: Timestamp, fail: bool)
      returns (r: Option<PointTransaction>)
      modifies this
      ensures fail ==> r.None? && transactions == old(transactions)
      ensures !fail ==> r == Some(PointTransaction(newId, t.user_id, t.points, t.transaction_type,
                                                   t.description, t.reference_id, now))
      ensures !fail ==> transactions == old(transactions) + [r.value]
      ensures !fail ==> forall u ::
        Queries.GetUserTotalPoints(transactions, u, false)
          == Queries.GetUserTotalPoints(old(transactions), u, false) + (if u == t.user_id then t.points else 0)
      ensures users == old(users) && rewards == old(rewards)
      ensures redemptions == old(redemptions) && milestones == old(milestones)
    {
      if fail {
        return None;
      }
      var row := PointTransaction(newId, t.user_id, t.points, t.transaction_type,
                                  t.description, t.reference_id, now);
      forall u ensures Queries.GetUserTotalPoints(transactions + [row], u, false)
        == Queries.GetUserTotalPoints(transactions, u, false) + (if u == t.user_id then t.points else 0)
      {
        Queries.TotalAfterAppend(transactions, row, u);
      }
      transactions := transactions + [row];
      return Some(row);
    }

    /** redemptionService.createRedemption: appends the stamped row with whatever
        status the caller gave, and returns it, or null. */
    method CreateRedemption(h: NewRedemption, newId: string, now: Timestamp, fail: bool)
      returns (r: Option<RedemptionHistory>)
      modifies this
      ensures fail ==> r.None? && redemptions == old(redemptions)
      ensures !fail ==> r == Some(RedemptionHistory(newId, h.user_id, h.reward_id, h.points_used,
                                                    h.status, now, h.completed_at))
      ensures !fail ==> redemptions == old(redemptions) + [r.value]
      ensures users == old(users) && transactions == old(transactions)
      ensures rewards == old(rewards) && milestones == old(milestones)
    {
      if fail {
        return None;
      }
      var row := RedemptionHistory(newId, h.user_id, h.reward_id, h.points_used, h.status, now, h.completed_at);
      redemptions := redemptions + [row];
      return Some(row);
    }

    /** redemptionService.updateRedemptionStatus: builds the patch (status, then
        completed_at when completing), applies it to the rows with that id without
        looking at their current status, and reports whether the request succeeded. */
    method UpdateRedemptionStatus(redemptionId: string, status: RedemptionStatus, now: Timestamp, fail: bool)
      returns (ok: bool)
      modifies this
      ensures ok == !fail
      ensures redemptions == if fail then old(redemptions) else ApplyPatch(old(redemptions), redemptionId, PatchFor(status, now))
      ensures users == old(users) && transactions == old(transactions)
      ensures rewards == old(rewards) && milestones == old(milestones)
    {
      var update := StatusPatch(status, None);
      if status == Completed {
        update := update.(completed_at := Some(now));
      }
      if fail {
        return false;
      }
      redemptions := ApplyPatch(redemptions, redemptionId, update);
      return true;
    }

    /** authService.signUp: on an auth error returns it and inserts nothing;
        otherwise inserts the profile of the returned account (when there is one),
        and returns the account with no error whether or not the insert worked. */
    method SignUp(profile: Profile, auth: AuthResult, newId: string, now: Timestamp, insertFails: bool)
      returns (r: AuthResult)
      modifies this
      ensures auth.error.Some? ==> r == AuthResult(None, auth.error) && users == old(users)
      ensures auth.error.None? ==> r == AuthResult(auth.user, None)
      ensures auth.error.None? && auth.user.Some? && !insertFails ==>
        users == old(users) + [User(newId, auth.user.value.email, profile.phone, profile.full_name,
                                    0, Bronze, now, now)]
      ensures (auth.error.None? && auth.user.Some? && insertFails) || (auth.error.None? && auth.user.None?) ==>
        users == old(users)
      ensures transactions == old(transactions) && rewards == old(rewards)
      ensures redemptions == old(redemptions) && milestones == old(milestones)
    {
      if auth.error.Some? {
        return AuthResult(None, auth.error);
      }
      if auth.user.Some? {
        var created := CreateUser(ProfileFor(auth.user.value, profile), newId, now, insertFails);
      }
      return AuthResult(auth.user, None);
    }
  }
}
