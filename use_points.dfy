/** The `usePoints` hook: caches the profile's points and adds to them. */
module UsePoints {
  import opened Common
  import opened Backend

  class PointsHook {
    const store: Store
    const userId: Option<UserId>
    var points: int

    constructor (store: Store, userId: Option<UserId>)
      ensures this.store == store && this.userId == userId && points == 0
    {
      this.store, this.userId, points := store, userId, 0;
    }

    /**
     * Loads the profile's points. Without a user nothing is read; a missing
     * row, a null column or a read error all give 0.
     */
    method Load(fetch: Outcome)
      modifies this`points
      ensures !Truthy(userId) ==> points == old(points)
      ensures Truthy(userId) ==>
        points == (if fetch.Ok? && userId.value in store.profiles then Or0(store.profiles[userId.value].points) else 0)
    {
      if !Truthy(userId) {
        return;
      }
      if fetch.Ok? && userId.value in store.profiles {
        points := Or0(store.profiles[userId.value].points);
      } else {
        points := 0;
      }
    }

    /**
     * Adds `amount` without reading the stored value again: the profile is set
     * to the cached points plus `amount`, and the cache becomes the returned
     * row's points. Without a user nothing happens; when the update fails or
     * finds no row, reading the missing result throws and the cache stays.
     */
    method AddPoints(amount: int, update: Outcome)
      modifies this`points, store`profiles
      ensures !Truthy(userId) || update.Fail? || userId.value !in old(store.profiles) ==>
        points == old(points) && store.profiles == old(store.profiles)
      ensures Truthy(userId) && update.Ok? && userId.value in old(store.profiles) ==>
        var id := userId.value;
        && store.profiles == old(store.profiles)[id := old(store.profiles)[id].(points := Some(old(points) + amount))]
        && points == old(points) + amount
    {
      if !Truthy(userId) {
        return;
      }
      var id := userId.value;
      if update.Fail? || id !in store.profiles {
        return;
      }
      var row := store.profiles[id].(points := Some(points + amount));
      store.profiles := store.profiles[id := row];
      points := Or0(row.points);
    }
  }
}
