/**
 * The read services of client/lib/database.ts, each as what it asks of an
 * in-memory table: filter, order, limit, pick a single row, and the two
 * computations done locally (the milestone filter and the ledger sum).
 * `fail` stands for the remote call returning an error.
 */
module Queries {
  import opened Records
  import opened Seqs

  /** PostgREST `.single()`: the row when exactly one matches, else an error. */
  function Single<T>(rows: seq<T>): (r: Option<T>)
    ensures r.Some? <==> |rows| == 1
    ensures r.Some? ==> r.value == rows[0]
  {
    if |rows| == 1 then Some(rows[0]) else None
  }

  // ----- userService -----

  function GetUser(users: seq<User>, userId: string, fail: bool): (r: Option<User>)
    ensures r.Some? ==> !fail && r.value in users && r.value.id == userId
    ensures r.Some? <==> !fail && |Filter(users, UserWithId(userId))| == 1
  {
    if fail then None else Single(Filter(users, UserWithId(userId)))
  }

  function UserWithId(userId: string): User -> bool
  {
    (u: User) => u.id == userId
  }

  /** The `email.eq.v,phone.eq.v` disjunction of getUserByEmailOrPhone. */
  predicate MatchesContact(u: User, value: string)
  {
    u.email == value || u.phone == Some(value)
  }

  function UserWithContact(value: string): User -> bool
  {
    (u: User) => MatchesContact(u, value)
  }

  function GetUserByEmailOrPhone(users: seq<User>, value: string, fail: bool): (r: Option<User>)
    ensures r.Some? ==> !fail && r.value in users && MatchesContact(r.value, value)
    ensures r.Some? <==> !fail && |Filter(users, UserWithContact(value))| == 1
  {
    if fail then None else Single(Filter(users, UserWithContact(value)))
  }

  // ----- pointsService -----

  const DefaultTransactionLimit: nat := 20

  function NewestFirst(t: PointTransaction): int { -(t.created_at as int) }

  function OwnedBy(userId: string): PointTransaction -> bool
  {
    (t: PointTransaction) => t.user_id == userId
  }

  /** All of a user's transactions, newest first. */
  function UserLedger(rows: seq<PointTransaction>, userId: string): seq<PointTransaction>
  {
    SortBy(Filter(rows, OwnedBy(userId)), NewestFirst)
  }

  function GetUserTransactions(rows: seq<PointTransaction>, userId: string, limit: nat, fail: bool)
    : seq<PointTransaction>
  {
    if fail then [] else Take(UserLedger(rows, userId), limit)
  }

  /** getUserTransactions returns nothing on error and at most `limit` rows. */
  lemma UserTransactionsBounded(rows: seq<PointTransaction>, userId: string, limit: nat, fail: bool)
    ensures fail ==> GetUserTransactions(rows, userId, limit, fail) == []
    ensures |GetUserTransactions(rows, userId, limit, fail)| <= limit
  {
  }

  /** Every returned row is one of the user's rows. */
  lemma UserTransactionsOwned(rows: seq<PointTransaction>, userId: string, limit: nat, fail: bool)
    ensures forall x :: x in GetUserTransactions(rows, userId, limit, fail) ==> x in rows && x.user_id == userId
  {
    var r := GetUserTransactions(rows, userId, limit, fail);
    forall x | x in r ensures x in rows && x.user_id == userId {
      var owned := Filter(rows, OwnedBy(userId));
      var i :| 0 <= i < |r| && r[i] == x;
      assert x == UserLedger(rows, userId)[i];
      SortByMembership(owned, NewestFirst, x);
    }
  }

  /** The returned rows are newest first. */
  lemma UserTransactionsNewestFirst(rows: seq<PointTransaction>, userId: string, limit: nat, fail: bool)
    ensures var r := GetUserTransactions(rows, userId, limit, fail);
      forall i, j :: 0 <= i < j < |r| ==> r[i].created_at >= r[j].created_at
  {
    var r := GetUserTransactions(rows, userId, limit, fail);
    var all := UserLedger(rows, userId);
    SortBySorted(Filter(rows, OwnedBy(userId)), NewestFirst);
    forall i, j | 0 <= i < j < |r| ensures r[i].created_at >= r[j].created_at {
      assert NewestFirst(all[i]) <= NewestFirst(all[j]);
    }
  }

  /** The returned rows are the newest: a row of the user's that is left out is
      no newer than any row returned. */
  lemma UserTransactionsAreNewest(rows: seq<PointTransaction>, userId: string, limit: nat)
    ensures var r := GetUserTransactions(rows, userId, limit, false);
      forall y, x :: y in rows && y.user_id == userId && y !in r && x in r ==> y.created_at <= x.created_at
  {
    var owned := Filter(rows, OwnedBy(userId));
    var all := UserLedger(rows, userId);
    var r := GetUserTransactions(rows, userId, limit, false);
    SortBySorted(owned, NewestFirst);
    forall y, x | y in rows && y.user_id == userId && y !in r && x in r
      ensures y.created_at <= x.created_at
    {
      FilterMembership(rows, OwnedBy(userId), y);
      SortByMembership(owned, NewestFirst, y);
      var k :| 0 <= k < |all| && all[k] == y;
      var i :| 0 <= i < |r| && r[i] == x;
      assert |r| <= k;
      assert NewestFirst(all[i]) <= NewestFirst(all[k]);
    }
  }

  /** getUserTransactions called without a limit: the default of 20 applies,
      and the rows are the user's own. */
  function GetUserTransactionsDefault(rows: seq<PointTransaction>, userId: string, fail: bool)
    : (r: seq<PointTransaction>)
    ensures |r| <= DefaultTransactionLimit
    ensures forall x :: x in r ==> x in rows && x.user_id == userId
  {
    UserTransactionsBounded(rows, userId, DefaultTransactionLimit, fail);
    UserTransactionsOwned(rows, userId, DefaultTransactionLimit, fail);
    GetUserTransactions(rows, userId, DefaultTransactionLimit, fail)
  }

  /** When the user has at most `limit` rows, all of them are returned. */
  lemma UserTransactionsComplete(rows: seq<PointTransaction>, userId: string, limit: nat)
    requires |Filter(rows, OwnedBy(userId))| <= limit
    ensures multiset(GetUserTransactions(rows, userId, limit, false)) == multiset(Filter(rows, OwnedBy(userId)))
  {
  }

  /** `reduce((total, t) => total + t.points, total)`, the left fold the code runs. */
  function Reduce(total: int, rows: seq<PointTransaction>): int
    decreases |rows|
  {
    if rows == [] then total else Reduce(total + rows[0].points, rows[1..])
  }

  /** The ledger sum: every row's signed points delta, added up. */
  function LedgerSum(rows: seq<PointTransaction>): int
  {
    if rows == [] then 0 else rows[0].points + LedgerSum(rows[1..])
  }

  lemma {:induction false} ReduceIsLedgerSum(total: int, rows: seq<PointTransaction>)
    ensures Reduce(total, rows) == total + LedgerSum(rows)
    decreases |rows|
  {
    if rows != [] {
      ReduceIsLedgerSum(total + rows[0].points, rows[1..]);
    }
  }

  lemma {:induction false} LedgerSumAppend(a: seq<PointTransaction>, b: seq<PointTransaction>)
    ensures LedgerSum(a + b) == LedgerSum(a) + LedgerSum(b)
  {
    if a == [] {
      assert a + b == b;
    } else {
      assert (a + b)[1..] == a[1..] + b;
      LedgerSumAppend(a[1..], b);
    }
  }

  function GetUserTotalPoints(rows: seq<PointTransaction>, userId: string, fail: bool): int
  {
    if fail then 0 else Reduce(0, Filter(rows, OwnedBy(userId)))
  }

  /** getUserTotalPoints is the sum of the user's deltas, negative ones included;
      0 with no rows or on error. */
  lemma GetUserTotalPointsSpec(rows: seq<PointTransaction>, userId: string, fail: bool)
    ensures fail ==> GetUserTotalPoints(rows, userId, fail) == 0
    ensures !fail ==> GetUserTotalPoints(rows, userId, fail) == LedgerSum(Filter(rows, OwnedBy(userId)))
    ensures Filter(rows, OwnedBy(userId)) == [] ==> GetUserTotalPoints(rows, userId, fail) == 0
  {
    ReduceIsLedgerSum(0, Filter(rows, OwnedBy(userId)));
  }

  /** Appending a row changes its owner's total by its delta and no one else's. */
  lemma TotalAfterAppend(rows: seq<PointTransaction>, t: PointTransaction, userId: string)
    ensures GetUserTotalPoints(rows + [t], userId, false)
         == GetUserTotalPoints(rows, userId, false) + (if t.user_id == userId then t.points else 0)
  {
    FilterAppend(rows, [t], OwnedBy(userId));
    LedgerSumAppend(Filter(rows, OwnedBy(userId)), Filter([t], OwnedBy(userId)));
    GetUserTotalPointsSpec(rows + [t], userId, false);
    GetUserTotalPointsSpec(rows, userId, false);
  }

  /** A ledger of +1000, +150 and -500 for one user totals 650. */
  lemma TotalPointsExample(a: PointTransaction, b: PointTransaction, c: PointTransaction)
    requires a.user_id == b.user_id == c.user_id
    requires a.points == 1000 && b.points == 150 && c.points == -500
    ensures GetUserTotalPoints([a, b, c], a.user_id, false) == 650
  {
    var rows := [a, b, c];
    var mine := OwnedBy(a.user_id);
    assert rows[1..] == [b, c] && [b, c][1..] == [c] && [c][1..] == [];
    assert Filter([c], mine) == [c];
    assert Filter([b, c], mine) == [b, c];
    assert Filter(rows, mine) == rows;
    assert Reduce(0, rows) == Reduce(1000, [b, c]) == Reduce(1150, [c]) == 650;
  }

  // ----- rewardsService -----

  predicate IsActiveReward(r: Reward) { r.is_active }

  function RewardCost(r: Reward): int { r.points_required }

  function GetActiveRewards(rows: seq<Reward>, fail: bool): seq<Reward>
  {
    if fail then [] else SortBy(Filter(rows, IsActiveReward), RewardCost)
  }

  /** getActiveRewards: exactly the active rows, non-decreasing in points_required;
      empty on error. */
  lemma GetActiveRewardsSpec(rows: seq<Reward>, fail: bool)
    ensures var r := GetActiveRewards(rows, fail);
      && (fail ==> r == [])
      && (forall x :: x in r ==> x.is_active)
      && (forall i, j :: 0 <= i < j < |r| ==> r[i].points_required <= r[j].points_required)
      && (!fail ==> forall x :: x in r <==> x in rows && x.is_active)
      && (!fail ==> multiset(r) == multiset(Filter(rows, IsActiveReward)))
  {
    if !fail {
      var r := GetActiveRewards(rows, fail);
      SortBySorted(Filter(rows, IsActiveReward), RewardCost);
      forall x ensures x in r <==> x in rows && x.is_active {
        SortByMembership(Filter(rows, IsActiveReward), RewardCost, x);
        FilterMembership(rows, IsActiveReward, x);
      }
      forall i, j | 0 <= i < j < |r| ensures r[i].points_required <= r[j].points_required {
        assert RewardCost(r[i]) <= RewardCost(r[j]);
      }
    }
  }

  function RewardWithId(rewardId: string): Reward -> bool
  {
    (x: Reward) => x.id == rewardId
  }

  function GetReward(rows: seq<Reward>, rewardId: string, fail: bool): (r: Option<Reward>)
    ensures r.Some? ==> !fail && r.value in rows && r.value.id == rewardId
    ensures r.Some? <==> !fail && |Filter(rows, RewardWithId(rewardId))| == 1
  {
    if fail then None else Single(Filter(rows, RewardWithId(rewardId)))
  }

  // ----- redemptionService -----

  /** The `rewards (name, description, category)` columns embedded in each row. */
  datatype RewardSummary = RewardSummary(name: string, description: string, category: RewardCategory)

  datatype RedemptionWithReward = RedemptionWithReward(
    redemption: RedemptionHistory, reward: Option<RewardSummary>)

  function Summary(r: Reward): RewardSummary
  {
    RewardSummary(r.name, r.description, r.category)
  }

  function Embed(rewards: seq<Reward>, h: RedemptionHistory): (e: RedemptionWithReward)
    ensures e.redemption == h
    ensures e.reward.Some? <==> |Filter(rewards, RewardWithId(h.reward_id))| == 1
    ensures e.reward.Some? ==> exists x :: x in rewards && x.id == h.reward_id && e.reward.value == Summary(x)
  {
    var matching := Filter(rewards, RewardWithId(h.reward_id));
    if |matching| == 1 then
      assert matching[0] in matching;
      RedemptionWithReward(h, Some(Summary(matching[0])))
    else RedemptionWithReward(h, None)
  }

  function RedeemedBy(userId: string): RedemptionHistory -> bool
  {
    (h: RedemptionHistory) => h.user_id == userId
  }

  function RedemptionNewestFirst(h: RedemptionHistory): int { -(h.created_at as int) }

  function GetUserRedemptions(rows: seq<RedemptionHistory>, rewards: seq<Reward>, userId: string, fail: bool)
    : (r: seq<RedemptionWithReward>)
    ensures fail ==> r == []
    ensures !fail ==> |r| == |Filter(rows, RedeemedBy(userId))|
  {
    if fail then []
    else
      var mine := SortBy(Filter(rows, RedeemedBy(userId)), RedemptionNewestFirst);
      seq(|mine|, i requires 0 <= i < |mine| => Embed(rewards, mine[i]))
  }

  /** getUserRedemptions: the user's redemptions, every one of them, newest first. */
  lemma GetUserRedemptionsSpec(rows: seq<RedemptionHistory>, rewards: seq<Reward>, userId: string)
    ensures var r := GetUserRedemptions(rows, rewards, userId, false);
      && (forall i :: 0 <= i < |r| ==> r[i].redemption in rows && r[i].redemption.user_id == userId)
      && (forall h :: h in rows && h.user_id == userId ==> exists i :: 0 <= i < |r| && r[i].redemption == h)
      && (forall i, j :: 0 <= i < j < |r| ==> r[i].redemption.created_at >= r[j].redemption.created_at)
      && (forall i :: 0 <= i < |r| ==> r[i] == Embed(rewards, r[i].redemption))
  {
    var keep := RedeemedBy(userId);
    var mine := SortBy(Filter(rows, keep), RedemptionNewestFirst);
    var r := GetUserRedemptions(rows, rewards, userId, false);
    assert forall i :: 0 <= i < |r| ==> r[i].redemption == mine[i];
    SortBySorted(Filter(rows, keep), RedemptionNewestFirst);
    forall i | 0 <= i < |r| ensures r[i].redemption in rows && r[i].redemption.user_id == userId {
      assert mine[i] in mine;
      SortByMembership(Filter(rows, keep), RedemptionNewestFirst, mine[i]);
    }
    forall h | h in rows && h.user_id == userId ensures exists i :: 0 <= i < |r| && r[i].redemption == h {
      FilterMembership(rows, keep, h);
      SortByMembership(Filter(rows, keep), RedemptionNewestFirst, h);
      var i :| 0 <= i < |mine| && mine[i] == h;
      assert r[i].redemption == h;
    }
    forall i, j | 0 <= i < j < |r| ensures r[i].redemption.created_at >= r[j].redemption.created_at {
      assert RedemptionNewestFirst(mine[i]) <= RedemptionNewestFirst(mine[j]);
    }
  }

  // ----- milestoneService -----

  predicate IsActiveMilestone(m: Milestone) { m.is_active }

  function MilestoneCost(m: Milestone): int { m.points_required }

  function GetActiveMilestones(rows: seq<Milestone>, fail: bool): seq<Milestone>
  {
    if fail then [] else SortBy(Filter(rows, IsActiveMilestone), MilestoneCost)
  }

  /** getActiveMilestones: exactly the active rows, non-decreasing in
      points_required; empty on error. */
  lemma GetActiveMilestonesSpec(rows: seq<Milestone>, fail: bool)
    ensures var r := GetActiveMilestones(rows, fail);
      && (fail ==> r == [])
      && SortedBy(r, MilestoneCost)
      && (forall i, j :: 0 <= i < j < |r| ==> r[i].points_required <= r[j].points_required)
      && (!fail ==> forall x :: x in r <==> x in rows && x.is_active)
      && (!fail ==> multiset(r) == multiset(Filter(rows, IsActiveMilestone)))
  {
    if !fail {
      var r := GetActiveMilestones(rows, fail);
      SortBySorted(Filter(rows, IsActiveMilestone), MilestoneCost);
      forall x ensures x in r <==> x in rows && x.is_active {
        SortByMembership(Filter(rows, IsActiveMilestone), MilestoneCost, x);
        FilterMembership(rows, IsActiveMilestone, x);
      }
      forall i, j | 0 <= i < j < |r| ensures r[i].points_required <= r[j].points_required {
        assert MilestoneCost(r[i]) <= MilestoneCost(r[j]);
      }
    }
  }

  function Reached(currentPoints: int): Milestone -> bool
  {
    (m: Milestone) => currentPoints >= m.points_required
  }

  /** checkUserMilestones: the fetched active milestones filtered by the
      threshold; `userId` takes no part. */
  function CheckUserMilestones(userId: string, currentPoints: int, rows: seq<Milestone>, fail: bool)
    : seq<Milestone>
  {
    Filter(GetActiveMilestones(rows, fail), Reached(currentPoints))
  }

  /** Exactly the active milestones at or under the current points, ascending;
      nothing on a fetch error. */
  lemma CheckUserMilestonesSpec(userId: string, currentPoints: int, rows: seq<Milestone>, fail: bool)
    ensures var r := CheckUserMilestones(userId, currentPoints, rows, fail);
      && (fail ==> r == [])
      && (forall x :: x in r <==> x in rows && x.is_active && x.points_required <= currentPoints && !fail)
      && (forall i, j :: 0 <= i < j < |r| ==> r[i].points_required <= r[j].points_required)
  {
    var active := GetActiveMilestones(rows, fail);
    var r := CheckUserMilestones(userId, currentPoints, rows, fail);
    GetActiveMilestonesSpec(rows, fail);
    FilterKeepsOrder(active, Reached(currentPoints), MilestoneCost);
    forall x ensures x in r <==> x in rows && x.is_active && x.points_required <= currentPoints && !fail {
      FilterMembership(active, Reached(currentPoints), x);
    }
    forall i, j | 0 <= i < j < |r| ensures r[i].points_required <= r[j].points_required {
      assert MilestoneCost(r[i]) <= MilestoneCost(r[j]);
    }
  }

  /** On a list sorted by cost, no row passes a threshold below the first row's cost. */
  lemma {:induction false} NoneReachedBelowFirst(s: seq<Milestone>, p: int)
    requires SortedBy(s, MilestoneCost)
    requires s != [] && s[0].points_required > p
    ensures Filter(s, Reached(p)) == []
  {
    if Filter(s, Reached(p)) != [] {
      var x := Filter(s, Reached(p))[0];
      FilterMembership(s, Reached(p), x);
      assert false;
    }
  }

  lemma {:induction false} ThresholdPrefix(s: seq<Milestone>, p: int, q: int)
    requires SortedBy(s, MilestoneCost)
    requires p <= q
    ensures Filter(s, Reached(p)) <= Filter(s, Reached(q))
  {
    if s != [] {
      ThresholdPrefix(s[1..], p, q);
      if s[0].points_required > p {
        NoneReachedBelowFirst(s, p);
      }
    }
  }

  /** Monotone: more points give a longer list that extends the shorter one
      (a prefix, so a superset), whoever asks; equal inputs give equal results. */
  lemma CheckUserMilestonesMonotone(u1: string, u2: string, p: int, q: int, rows: seq<Milestone>, fail: bool)
    requires p <= q
    ensures CheckUserMilestones(u1, p, rows, fail) <= CheckUserMilestones(u2, q, rows, fail)
    ensures forall x :: x in CheckUserMilestones(u1, p, rows, fail) ==> x in CheckUserMilestones(u2, q, rows, fail)
  {
    GetActiveMilestonesSpec(rows, fail);
    ThresholdPrefix(GetActiveMilestones(rows, fail), p, q);
  }
}
