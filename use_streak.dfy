/**
 * The `claimDaily` hook: reads the user's streak row, creates it or bumps its
 * count (it never resets), and on success asks the server to credit 5 points.
 */
module UseStreak {
  import opened Common
  import opened Backend
  import StreakCard

  /** The fixed credit `claimDaily` asks for. */
  const DailyCredit := 5

  /**
   * The streak row `claimDaily` writes on `today`, given the row it read;
   * None when the row says today's claim was already made.
   */
  function DailyStep(row: Option<StreakRow>, today: int): (r: Option<StreakRow>)
    ensures r.None? <==> row.Some? && row.value.lastClaim == Some(today)
    ensures r.Some? ==> r.value.lastClaim == Some(today)
  {
    match row
    case None => Some(StreakRow(1, Some(today)))
    case Some(r) =>
      if r.lastClaim == Some(today) then None
      else Some(StreakRow(r.streakCount + 1, Some(today)))
  }

  /** The row a map holds for `userId`, as a `maybeSingle` read returns it. */
  function RowOf(m: map<UserId, StreakRow>, userId: UserId): Option<StreakRow>
  {
    if userId in m then Some(m[userId]) else None
  }

  /**
   * Claims the day. A failed read, a claim already made today, or a failed
   * insert or update returns false with nothing written and nothing asked of
   * the server. Otherwise the row becomes `DailyStep` of the old one, exactly
   * one credit of 5 is requested (applied when the request succeeds, though
   * its result is never checked), and the result is true.
   */
  method ClaimDaily(store: Store, userId: UserId, today: int, fetch: Outcome, write: Outcome, credit: Outcome)
    returns (ok: bool)
    modifies store`streaks, store`userPoints, store`calls
    ensures var step := DailyStep(RowOf(old(store.streaks), userId), today);
      ok <==> fetch.Ok? && step.Some? && write.Ok?
    ensures !ok ==> unchanged(store)
    ensures ok ==>
      var step := DailyStep(RowOf(old(store.streaks), userId), today);
      && step.Some?
      && store.streaks == old(store.streaks)[userId := step.value]
      && store.calls == old(store.calls) + [IncrementUserPoints(userId, DailyCredit)]
      && store.userPoints == (if credit.Ok? then CreditPoints(old(store.userPoints), userId, DailyCredit)
                              else old(store.userPoints))
  {
    if fetch.Fail? {
      return false;
    }
    if userId !in store.streaks {
      if write.Fail? {
        return false;
      }
      store.streaks := store.streaks[userId := StreakRow(1, Some(today))];
      Credit(store, userId, credit);
      return true;
    }
    var data := store.streaks[userId];
    if data.lastClaim == Some(today) {
      return false;
    }
    if write.Fail? {
      return false;
    }
    store.streaks := store.streaks[userId := StreakRow(data.streakCount + 1, Some(today))];
    Credit(store, userId, credit);
    return true;
  }

  /** `increment_user_points(uid: userId, amount: 5)`, whose result the hook ignores. */
  method Credit(store: Store, userId: UserId, credit: Outcome)
    modifies store`userPoints, store`calls
    ensures store.calls == old(store.calls) + [IncrementUserPoints(userId, DailyCredit)]
    ensures store.userPoints == (if credit.Ok? then CreditPoints(old(store.userPoints), userId, DailyCredit)
                                 else old(store.userPoints))
  {
    store.calls := store.calls + [IncrementUserPoints(userId, DailyCredit)];
    if credit.Ok? {
      store.userPoints := CreditPoints(store.userPoints, userId, DailyCredit);
    }
  }

  /** A second claim on the day of a successful one is rejected. */
  lemma RepeatSameDayRejected(row: Option<StreakRow>, today: int)
    requires DailyStep(row, today).Some?
    ensures DailyStep(DailyStep(row, today), today) == None
  {
  }

  /** The row after `claimDaily` succeeds or is rejected on each of `days` in turn, starting with no row. */
  function RowAfter(days: seq<int>): Option<StreakRow>
  {
    if |days| == 0 then None
    else
      var prev := RowAfter(days[..|days| - 1]);
      var step := DailyStep(prev, days[|days| - 1]);
      if step.Some? then step else prev
  }

  ghost predicate StrictlyIncreasing(days: seq<int>)
  {
    forall i, j :: 0 <= i < j < |days| ==> days[i] < days[j]
  }

  /** On distinct, increasing days every claim succeeds, so the count is the number of claims whatever the gaps. */
  lemma {:induction false} CountIsNumberOfClaims(days: seq<int>)
    requires StrictlyIncreasing(days)
    ensures |days| > 0 ==> RowAfter(days) == Some(StreakRow(|days|, Some(days[|days| - 1])))
  {
    var n := |days|;
    if n > 1 {
      var d := days[..n - 1];
      assert StrictlyIncreasing(d);
      CountIsNumberOfClaims(d);
      assert d[n - 2] == days[n - 2] < days[n - 1];
    }
  }

  /**
   * The card and the hook record the same streak after claims on increasing
   * days exactly when those days are consecutive.
   */
  lemma {:induction false} PathsAgreeIffConsecutive(days: seq<int>)
    requires StrictlyIncreasing(days) && |days| > 0
    ensures RowAfter(days).Some?
    ensures StreakCard.StreakAfter(days) == RowAfter(days).value.streakCount
        <==> StreakCard.ConsecutiveTail(days, |days|)
  {
    CountIsNumberOfClaims(days);
    StreakCard.StreakIsConsecutiveRun(days);
  }
}
