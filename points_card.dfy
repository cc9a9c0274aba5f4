/** The balance card: reads the user's points row, creating a zero row when there is none. */
module PointsCard {
  import opened Common
  import opened Backend

  class PointsCard {
    const store: Store
    const userId: Option<UserId>
    var points: int

    constructor (store: Store, userId: Option<UserId>)
      ensures this.store == store && this.userId == userId && points == 0
    {
      this.store, this.userId, points := store, userId, 0;
    }

    /**
     * Refreshes the shown balance. Without a user nothing is read. An existing
     * row is shown as stored (a null balance as 0) and never written; only a
     * missing row is inserted as 0, and 0 is shown; any error shows 0.
     */
    method FetchPoints(fetch: Outcome, insert: Outcome)
      modifies this`points, store`userPoints
      ensures !Truthy(userId) ==> points == old(points) && store.userPoints == old(store.userPoints)
      ensures Truthy(userId) ==>
        var id := userId.value;
        && points == (if fetch.Ok? && id in old(store.userPoints) then Or0(old(store.userPoints)[id]) else 0)
        && store.userPoints == (if fetch.Ok? && id !in old(store.userPoints) && insert.Ok?
                                then old(store.userPoints)[id := Some(0)]
                                else old(store.userPoints))
    {
      if !Truthy(userId) {
        return;
      }
      var id := userId.value;
      if fetch.Fail? {
        points := 0;
        return;
      }
      var data: Option<int>;
      if id in store.userPoints {
        data := store.userPoints[id];
      } else {
        if insert.Fail? {
          points := 0;
          return;
        }
        store.userPoints := store.userPoints[id := Some(0)];
        data := Some(0);
      }
      points := Or0(data);
    }
  }

  /** After a successful refresh on a fresh user, a second refresh reads back exactly 0 and writes nothing. */
  method FreshUserReadsZero(store: Store)
    requires "u" !in store.userPoints
    modifies store`userPoints
  {
    var card := new PointsCard(store, Some("u"));
    card.FetchPoints(Ok, Ok);
    var after := store.userPoints;
    card.FetchPoints(Ok, Ok);
    assert card.points == 0 && store.userPoints == after;
  }
}
