/**
 * The remote relational store the client talks to, held as plain state:
 * one map per keyed table, one sequence per append-only log, and a log of
 * the remote procedures, auth requests and uploads the client issues.
 * What a remote procedure does on the server is not visible to the client;
 * the functions at the end of this module are the effects the model assumes.
 */
module Backend {
  import opened Common

  type UserId = string

  /** A row of `streaks`. */
  datatype StreakRow = StreakRow(streakCount: int, lastClaim: Option<int>)

  /** A row of `profiles` (the creation timestamp is not modelled). */
  datatype Profile = Profile(
    email: Option<string>,
    referralCode: string,
    referredBy: Option<string>,
    referralCount: Option<int>,
    points: Option<int>)

  /** The status of a reward. */
  datatype Status = Locked | Unlocked | ComingSoon

  /** A row of `rewards`, with the optional fields of the client's `Reedem` type. */
  datatype Reedem = Reedem(
    id: int,
    title: Option<string>,
    description: Option<string>,
    points: Option<int>,
    status: Status,
    icon: Option<string>,
    kind: Option<string>)

  /** A row of `reward_redemptions`. */
  datatype Redemption = Redemption(userId: UserId, rewardId: int)

  /** A row of `reward_claims`. */
  datatype RewardClaim = RewardClaim(
    userId: UserId,
    email: string,
    screenshotPath: string,
    points: int,
    rewardTitle: string)

  /** A request the client issues that is not a plain table read or write. */
  datatype Call =
    | RedeemReward(user: UserId, rewardId: int)
    | IncrementUserPoints(uid: string, amount: int)
    | IncrementProfileReferrals(refCode: string, increment: int)
    | IncrementProfileStats(refCode: string, pointInc: int)
    | SignUp(email: string)
    | SignInWithPassword(email: string)
    | SignInWithOAuth(provider: string, redirectTo: string)
    | ResetPasswordForEmail(email: string, redirectTo: string)
    | Upload(bucket: string, fileName: string)

  /** The message a rejected insert of an existing key carries. */
  const DuplicateKey := "duplicate key value violates unique constraint"

  class Store {
    var streaks: map<UserId, StreakRow>
    var userPoints: map<UserId, Option<int>>
    var profiles: map<UserId, Profile>
    var rewards: seq<Reedem>
    var redemptions: seq<Redemption>
    var claims: seq<RewardClaim>
    var calls: seq<Call>

    /** A store holding the given reward catalogue and nothing else. */
    constructor (rewards: seq<Reedem>)
      ensures this.rewards == rewards
      ensures streaks == map[] && userPoints == map[] && profiles == map[]
      ensures redemptions == [] && claims == [] && calls == []
    {
      this.rewards := rewards;
      streaks, userPoints, profiles := map[], map[], map[];
      redemptions, claims, calls := [], [], [];
    }
  }

  /** The balance a `user_points` read yields: a missing row or a null column reads as 0. */
  function PointsOf(m: map<UserId, Option<int>>, uid: UserId): int
  {
    if uid in m then Or0(m[uid]) else 0
  }

  /**
   * Assumed effect of `increment_user_points(uid, amount)`: the row keyed `uid`
   * holds its old balance (0 when absent) plus `amount`; no other row changes.
   */
  function CreditPoints(m: map<UserId, Option<int>>, uid: string, amount: int): (r: map<UserId, Option<int>>)
    ensures r.Keys == m.Keys + {uid}
    ensures PointsOf(r, uid) == PointsOf(m, uid) + amount
    ensures forall u :: u in m && u != uid ==> r[u] == m[u]
  {
    m[uid := Some(PointsOf(m, uid) + amount)]
  }

  /**
   * Assumed effect of the referral procedures: every profile whose referral code
   * is `code` gains `countInc` referrals when `countInc` is not 0, and `pointInc`
   * points when `pointInc` is not 0; no other profile and no other column changes.
   */
  function BumpByCode(ps: map<UserId, Profile>, code: string, countInc: int, pointInc: int): (r: map<UserId, Profile>)
    ensures r.Keys == ps.Keys
    ensures forall id :: id in ps && ps[id].referralCode != code ==> r[id] == ps[id]
    ensures forall id :: id in ps && ps[id].referralCode == code ==>
      && r[id].referralCount == (if countInc == 0 then ps[id].referralCount else Some(Or0(ps[id].referralCount) + countInc))
      && r[id].points == (if pointInc == 0 then ps[id].points else Some(Or0(ps[id].points) + pointInc))
      && r[id].(referralCount := ps[id].referralCount, points := ps[id].points) == ps[id]
  {
    map id | id in ps :: Bumped(ps[id], code, countInc, pointInc)
  }

  function Bumped(p: Profile, code: string, countInc: int, pointInc: int): Profile
  {
    if p.referralCode != code then p
    else
      var count := if countInc == 0 then p.referralCount else Some(Or0(p.referralCount) + countInc);
      var points := if pointInc == 0 then p.points else Some(Or0(p.points) + pointInc);
      p.(referralCount := count, points := points)
  }
}
