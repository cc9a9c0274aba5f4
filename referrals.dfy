/**
 * The referral accessor: `createUser` inserts a profile with a fresh code and
 * credits the referrer, and `getReferralStats` turns a profile row into the
 * numbers and the shareable link shown to the user.
 */
module Referrals {
  import opened Common
  import opened Backend

  /** Referrals counted per signup, and points credited to the referrer. */
  const ReferralIncrement := 1
  const ReferralBonus := 25

  /** The profile `createUser` inserts. */
  function NewProfile(email: string, referredBy: Option<string>, referralCode: string): (p: Profile)
  {
    Profile(Some(email), referralCode, OrNull(referredBy), Some(0), Some(0))
  }

  /**
   * Creates the profile of a new account. `referralCode` is the 8-character
   * random code and `newId` the id the database gives the new row. A failed
   * insert throws before anything else is written. Otherwise, when a referrer
   * code is given, its profile gains a referral and 25 points are credited to
   * the points row whose user id is the code itself; then the new user's
   * points row is upserted to 0. The two requests and the upsert are not
   * checked for errors.
   */
  method CreateUser(store: Store, email: string, referredBy: Option<string>, referralCode: string,
                    newId: UserId, insert: Outcome, referralsRpc: Outcome, pointsRpc: Outcome, upsert: Outcome)
    returns (r: Result<(UserId, Profile)>)
    requires |referralCode| == 8
    modifies store`profiles, store`userPoints, store`calls
    ensures insert.Fail? || newId in old(store.profiles) ==> r.Failure? && unchanged(store)
    ensures insert.Ok? && newId !in old(store.profiles) ==>
      var p := NewProfile(email, referredBy, referralCode);
      var inserted := old(store.profiles)[newId := p];
      && r == Success((newId, p))
      && (!Truthy(referredBy) ==>
            store.profiles == inserted
            && store.calls == old(store.calls)
            && store.userPoints == (if upsert.Ok? then old(store.userPoints)[newId := Some(0)] else old(store.userPoints)))
      && (Truthy(referredBy) ==>
            var ref := referredBy.value;
            var credited := if pointsRpc.Ok? then CreditPoints(old(store.userPoints), ref, ReferralBonus)
                            else old(store.userPoints);
            store.profiles == (if referralsRpc.Ok? then BumpByCode(inserted, ref, ReferralIncrement, 0) else inserted)
            && store.calls == old(store.calls) + [IncrementProfileReferrals(ref, ReferralIncrement),
                                                  IncrementUserPoints(ref, ReferralBonus)]
            && store.userPoints == (if upsert.Ok? then credited[newId := Some(0)] else credited))
  {
    var profile := NewProfile(email, referredBy, referralCode);
    if insert.Fail? || newId in store.profiles {
      return Failure(if insert.Fail? then insert.message else DuplicateKey);
    }
    store.profiles := store.profiles[newId := profile];
    var userId := newId;
    if Truthy(referredBy) {
      CreditReferrer(store, referredBy.value, referralsRpc, pointsRpc);
    }
    if upsert.Ok? {
      store.userPoints := store.userPoints[userId := Some(0)];
    }
    return Success((userId, profile));
  }

  /**
   * The two requests crediting the referrer code `ref`: one more referral for
   * its profile, then 25 points for the points row keyed by `ref`; each
   * applies only when it succeeds, and neither is checked.
   */
  method CreditReferrer(store: Store, ref: string, referralsRpc: Outcome, pointsRpc: Outcome)
    modifies store`profiles, store`userPoints, store`calls
    ensures store.calls == old(store.calls) + [IncrementProfileReferrals(ref, ReferralIncrement),
                                               IncrementUserPoints(ref, ReferralBonus)]
    ensures store.profiles == (if referralsRpc.Ok? then BumpByCode(old(store.profiles), ref, ReferralIncrement, 0)
                               else old(store.profiles))
    ensures store.userPoints == (if pointsRpc.Ok? then CreditPoints(old(store.userPoints), ref, ReferralBonus)
                                 else old(store.userPoints))
  {
    store.calls := store.calls + [IncrementProfileReferrals(ref, ReferralIncrement)];
    if referralsRpc.Ok? {
      store.profiles := BumpByCode(store.profiles, ref, ReferralIncrement, 0);
    }
    store.calls := store.calls + [IncrementUserPoints(ref, ReferralBonus)];
    if pointsRpc.Ok? {
      store.userPoints := CreditPoints(store.userPoints, ref, ReferralBonus);
    }
  }

  /** The new profile starts with no points and no referrals, and records the referrer code only when one is given. */
  lemma NewProfileStartsEmpty(email: string, referredBy: Option<string>, referralCode: string)
    requires |referralCode| == 8
    ensures var p := NewProfile(email, referredBy, referralCode);
      && Or0(p.points) == 0 && Or0(p.referralCount) == 0 && |p.referralCode| == 8
      && (p.referredBy.Some? <==> Truthy(referredBy))
      && (Truthy(referredBy) ==> p.referredBy == referredBy)
  {
  }

  /**
   * A signup with the referrer's code, both requests succeeding, gives the
   * referrer's profile one more referral, and its own points row (keyed by its
   * id, which differs from its code) is untouched: the 25 points land on a row
   * keyed by the code.
   */
  lemma {:induction false} ReferrerGetsCountNotPoints(
    profiles: map<UserId, Profile>, points: map<UserId, Option<int>>, referrer: UserId, newId: UserId, p: Profile)
    requires referrer in profiles && referrer != newId && referrer != profiles[referrer].referralCode
    ensures var code := profiles[referrer].referralCode;
      var after := BumpByCode(profiles[newId := p], code, ReferralIncrement, 0);
      && Or0(after[referrer].referralCount) == Or0(profiles[referrer].referralCount) + 1
      && after[referrer].points == profiles[referrer].points
      && PointsOf(CreditPoints(points, code, ReferralBonus), referrer) == PointsOf(points, referrer)
      && PointsOf(CreditPoints(points, code, ReferralBonus), code) == PointsOf(points, code) + ReferralBonus
  {
    var code := profiles[referrer].referralCode;
    var inserted := profiles[newId := p];
    assert referrer in inserted && inserted[referrer] == profiles[referrer];
    var after := BumpByCode(inserted, code, ReferralIncrement, 0);
    assert after[referrer] == Bumped(inserted[referrer], code, ReferralIncrement, 0);
    var credited := CreditPoints(points, code, ReferralBonus);
    assert referrer in points ==> credited[referrer] == points[referrer];
  }

  /** What the referral panel shows. */
  datatype Stats = Stats(referrals: Option<int>, pointsEarned: Option<int>, referralLink: string)

  const SignupPath := "/signup?ref="

  /** The shareable signup link carrying a referral code. */
  function ReferralLink(origin: string, code: string): string
  {
    origin + SignupPath + code
  }

  /** The code a signup link on `origin` carries, if it is one. */
  function CodeOfLink(origin: string, link: string): Option<string>
  {
    var prefix := origin + SignupPath;
    if |prefix| <= |link| && link[..|prefix|] == prefix then Some(link[|prefix|..]) else None
  }

  /** A referral link gives back exactly the code it was built from. */
  lemma {:induction false} LinkCarriesCode(origin: string, code: string)
    ensures CodeOfLink(origin, ReferralLink(origin, code)) == Some(code)
  {
    var prefix := origin + SignupPath;
    var link := ReferralLink(origin, code);
    assert link == prefix + code;
    assert link[..|prefix|] == prefix;
    assert link[|prefix|..] == code;
  }

  /**
   * Reads the caller's profile. A read error throws; a missing row gives zeros
   * and an empty link; a row gives its counters as stored and the link built
   * from its code.
   */
  method GetReferralStats(store: Store, userId: UserId, origin: string, fetch: Outcome)
    returns (r: Result<Stats>)
    ensures fetch.Fail? <==> r.Failure?
    ensures fetch.Ok? && userId !in store.profiles ==> r == Success(Stats(Some(0), Some(0), ""))
    ensures fetch.Ok? && userId in store.profiles ==>
      && r.Success?
      && r.value.referrals == store.profiles[userId].referralCount
      && r.value.pointsEarned == store.profiles[userId].points
      && CodeOfLink(origin, r.value.referralLink) == Some(store.profiles[userId].referralCode)
  {
    if fetch.Fail? {
      return Failure(fetch.message);
    }
    if userId !in store.profiles {
      return Success(Stats(Some(0), Some(0), ""));
    }
    var data := store.profiles[userId];
    LinkCarriesCode(origin, data.referralCode);
    return Success(Stats(data.referralCount, data.points, ReferralLink(origin, data.referralCode)));
  }
}
