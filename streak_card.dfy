/**
 * The daily-streak card: loads the user's streak row, and on a claim upserts
 * the streak row, reads the balance and upserts it with the daily credit,
 * then records the claim in its own state. Dates are day numbers.
 */
module StreakCard {
  import opened Common
  import opened Backend

  /** The streak a claim on `today` records: one more when the last claim was the day before, else 1. */
  function NextStreak(streak: int, lastClaim: Option<int>, today: int): int
  {
    if lastClaim == Some(today - 1) then streak + 1 else 1
  }

  /** The streak recorded after successful claims on each of `days` in turn, starting with no row. */
  function StreakAfter(days: seq<int>): int
  {
    if |days| == 0 then 0
    else NextStreak(StreakAfter(days[..|days| - 1]),
                    if |days| == 1 then None else Some(days[|days| - 2]),
                    days[|days| - 1])
  }

  /** The last `k` entries of `days` are consecutive calendar days. */
  ghost predicate ConsecutiveTail(days: seq<int>, k: nat)
  {
    k <= |days| && forall i :: |days| - k < i < |days| ==> days[i] == days[i - 1] + 1
  }

  /**
   * The recorded streak is exactly the number of consecutive days ending with
   * the latest claim: those days are consecutive, and no longer run is.
   */
  lemma {:induction false} StreakIsConsecutiveRun(days: seq<int>)
    ensures StreakAfter(days) >= 0
    ensures StreakAfter(days) == 0 <==> days == []
    ensures ConsecutiveTail(days, StreakAfter(days))
    ensures forall k: nat :: ConsecutiveTail(days, k) ==> k <= StreakAfter(days)
  {
    var n := |days|;
    if n == 0 {
    } else if n == 1 {
      assert StreakAfter(days[..0]) == 0;
    } else {
      var d := days[..n - 1];
      StreakIsConsecutiveRun(d);
      var s' := StreakAfter(d);
      assert forall i :: 0 <= i < n - 1 ==> d[i] == days[i];
      if days[n - 1] == days[n - 2] + 1 {
        assert StreakAfter(days) == s' + 1;
        forall k: nat | ConsecutiveTail(days, k) ensures k <= s' + 1 {
          if k > s' + 1 {
            assert ConsecutiveTail(d, k - 1);
          }
        }
      } else {
        assert StreakAfter(days) == 1;
        forall k: nat | ConsecutiveTail(days, k) ensures k <= 1 {
          assert k > 1 ==> n - k < n - 1;
        }
      }
    }
  }

  class StreakCard {
    const store: Store
    const userId: UserId
    const pointsPerDay: int
    var loading: bool
    var claimed: bool
    var streak: int
    var lastClaim: Option<int>

    /** A freshly mounted card; `pointsPerDay` defaults to 5. */
    constructor (store: Store, userId: UserId, pointsPerDay: int := 5)
      ensures this.store == store && this.userId == userId && this.pointsPerDay == pointsPerDay
      ensures !loading && !claimed && streak == 0 && lastClaim == None
    {
      this.store, this.userId, this.pointsPerDay := store, userId, pointsPerDay;
      loading, claimed, streak, lastClaim := false, false, 0, None;
    }

    /**
     * Loads the streak row: a found row sets the count and the last claim, and
     * marks the card claimed when that claim was today. No user, a failed read
     * or a missing row leave the card as it was.
     */
    method FetchStreak(today: int, fetch: Outcome)
      modifies this`streak, this`lastClaim, this`claimed
      ensures userId == "" || fetch.Fail? || userId !in store.streaks ==>
        streak == old(streak) && lastClaim == old(lastClaim) && claimed == old(claimed)
      ensures userId != "" && fetch.Ok? && userId in store.streaks ==>
        && streak == store.streaks[userId].streakCount
        && lastClaim == store.streaks[userId].lastClaim
        && claimed == (old(claimed) || store.streaks[userId].lastClaim == Some(today))
    {
      if userId == "" {
        return;
      }
      if fetch.Fail? || userId !in store.streaks {
        return;
      }
      var row := store.streaks[userId];
      streak := row.streakCount;
      lastClaim := row.lastClaim;
      if row.lastClaim == Some(today) {
        claimed := true;
      }
    }

    /**
     * Claims today's points. With no user or after a claim this session nothing
     * happens. Otherwise the streak row is upserted with the next streak and
     * today, then the balance is read and upserted with `pointsPerDay` added;
     * the first failing request stops the rest, so a failure after the streak
     * upsert leaves that row written while the balance and the card's state
     * stay as they were.
     */
    method HandleClaim(today: int, streakUpsert: Outcome, pointsRead: Outcome, pointsUpsert: Outcome)
      modifies this`loading, this`streak, this`lastClaim, this`claimed, store`streaks, store`userPoints
      ensures userId == "" || old(claimed) ==>
        && unchanged(this) && unchanged(store)
      ensures userId != "" && !old(claimed) ==>
        var next := NextStreak(old(streak), old(lastClaim), today);
        var allOk := streakUpsert.Ok? && pointsRead.Ok? && pointsUpsert.Ok?;
        && !loading
        && store.streaks == (if streakUpsert.Ok?
                             then old(store.streaks)[userId := StreakRow(next, Some(today))]
                             else old(store.streaks))
        && store.userPoints == (if allOk
                                then old(store.userPoints)[userId := Some(PointsOf(old(store.userPoints), userId) + pointsPerDay)]
                                else old(store.userPoints))
        && (allOk ==> streak == next && lastClaim == Some(today) && claimed)
        && (!allOk ==> streak == old(streak) && lastClaim == old(lastClaim) && claimed == old(claimed))
    {
      if userId == "" || claimed {
        return;
      }
      loading := true;
      var newStreak := NextStreak(streak, lastClaim, today);
      if streakUpsert.Fail? {
        loading := false;
        return;
      }
      store.streaks := store.streaks[userId := StreakRow(newStreak, Some(today))];
      if pointsRead.Fail? {
        loading := false;
        return;
      }
      var currentPoints := PointsOf(store.userPoints, userId);
      if pointsUpsert.Fail? {
        loading := false;
        return;
      }
      store.userPoints := store.userPoints[userId := Some(currentPoints + pointsPerDay)];
      streak := newStreak;
      lastClaim := Some(today);
      claimed := true;
      loading := false;
    }
  }

  /** Claims on 10, 11 and 13 of a month: the streak goes 1, 2, then back to 1, and each claim credits 5. */
  method ClaimScenario(store: Store)
    modifies store
    requires store.streaks == map[] && store.userPoints == map[]
  {
    var card := new StreakCard(store, "u");
    card.HandleClaim(10, Ok, Ok, Ok);
    assert store.streaks["u"] == StreakRow(1, Some(10)) && PointsOf(store.userPoints, "u") == 5;
    card.HandleClaim(10, Ok, Ok, Ok);
    assert PointsOf(store.userPoints, "u") == 5;
    card := new StreakCard(store, "u");
    card.FetchStreak(11, Ok);
    card.HandleClaim(11, Ok, Ok, Ok);
    assert store.streaks["u"] == StreakRow(2, Some(11)) && PointsOf(store.userPoints, "u") == 10;
    card := new StreakCard(store, "u");
    card.FetchStreak(13, Ok);
    card.HandleClaim(13, Ok, Ok, Ok);
    assert store.streaks["u"] == StreakRow(1, Some(13)) && PointsOf(store.userPoints, "u") == 15;
  }
}
