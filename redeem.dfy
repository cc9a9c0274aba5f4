/**
 * The redeem page: loads the balance and one page of rewards, redeems a
 * reward through the server, and derives the filtered list and the
 * per-status counts shown on the filter tabs.
 */
module Redeem {
  import opened Common
  import opened Backend

  /** Rewards per page. */
  const PageSize := 12

  /** A filter tab: every reward, or those of one status. */
  datatype Filter = All | Only(status: Status)

  predicate Matches(r: Reedem, f: Filter)
  {
    f.All? || r.status == f.status
  }

  /** The rewards the active filter tab shows. */
  function Filtered(rs: seq<Reedem>, f: Filter): (r: seq<Reedem>)
    ensures f.All? ==> r == rs
    ensures |r| <= |rs|
    ensures forall x :: x in r <==> x in rs && Matches(x, f)
  {
    if rs == [] then []
    else if Matches(rs[0], f) then [rs[0]] + Filtered(rs[1..], f)
    else Filtered(rs[1..], f)
  }

  /** `xs` is `ys` with some entries left out, the rest in their order. */
  ghost predicate Subsequence<T>(xs: seq<T>, ys: seq<T>)
    decreases |ys|
  {
    xs == [] || (ys != [] && ((xs[0] == ys[0] && Subsequence(xs[1..], ys[1..])) || Subsequence(xs, ys[1..])))
  }

  /** Filtering keeps the order of the rewards it keeps. */
  lemma {:induction false} FilteredKeepsOrder(rs: seq<Reedem>, f: Filter)
    ensures Subsequence(Filtered(rs, f), rs)
  {
    if rs != [] {
      FilteredKeepsOrder(rs[1..], f);
    }
  }

  /** The number of rewards of one status. */
  function CountOf(rs: seq<Reedem>, s: Status): nat
  {
    |Filtered(rs, Only(s))|
  }

  /** The numbers on the four filter tabs. */
  datatype Counts = Counts(all: nat, unlocked: nat, locked: nat, comingSoon: nat)

  function CountsOf(rs: seq<Reedem>): Counts
  {
    Counts(|rs|, CountOf(rs, Unlocked), CountOf(rs, Locked), CountOf(rs, ComingSoon))
  }

  /** Every reward has exactly one status, so the three status tabs add up to the `all` tab. */
  lemma {:induction false} CountsPartition(rs: seq<Reedem>)
    ensures CountsOf(rs).all == CountsOf(rs).unlocked + CountsOf(rs).locked + CountsOf(rs).comingSoon
  {
    if rs != [] {
      CountsPartition(rs[1..]);
    }
  }

  /** The row indices, first and last inclusive, that page `page` requests. */
  function PageRange(page: int): (int, int)
  {
    ((page - 1) * PageSize, page * PageSize - 1)
  }

  /** Each page asks for 12 rows, and the page after it starts on the next row. */
  lemma PagesTile(page: int)
    ensures PageRange(page).1 - PageRange(page).0 + 1 == PageSize
    ensures PageRange(page + 1).0 == PageRange(page).1 + 1
  {
  }

  /** Distinct pages ask for disjoint rows. */
  lemma {:induction false} PagesDisjoint(p: int, q: int, i: int)
    requires p < q
    requires PageRange(p).0 <= i <= PageRange(p).1
    ensures !(PageRange(q).0 <= i <= PageRange(q).1)
  {
    assert (q - 1) * PageSize >= p * PageSize by {
      assert q - 1 >= p;
    }
  }

  /** The rows of `rewards` inside the range page `page` requests (rows past the end are simply absent). */
  function PageOf(rewards: seq<Reedem>, page: int): (r: seq<Reedem>)
    requires page >= 1
    ensures |r| <= PageSize
  {
    var lo := PageRange(page).0;
    var hi := PageRange(page).1 + 1;
    if lo >= |rewards| then [] else rewards[lo..Min(hi, |rewards|)]
  }

  /** Row `k` of a page is row `(page - 1) * 12 + k` of the table. */
  lemma PageOfRows(rewards: seq<Reedem>, page: int, k: int)
    requires page >= 1 && 0 <= k < |PageOf(rewards, page)|
    ensures PageRange(page).0 + k < |rewards| && PageOf(rewards, page)[k] == rewards[PageRange(page).0 + k]
  {
  }

  function Min(a: int, b: int): int { if a <= b then a else b }

  /** Pages 1 to `n`, read one after another, are the first `12 * n` rewards: no row is skipped or repeated. */
  lemma {:induction false} PagesCoverPrefix(rewards: seq<Reedem>, n: nat)
    ensures Pages(rewards, n) == rewards[..Min(n * PageSize, |rewards|)]
  {
    if n > 0 {
      PagesCoverPrefix(rewards, n - 1);
      PageExtendsPrefix(rewards, n);
    }
  }

  /** Page `n` continues exactly where the first `n - 1` pages stop. */
  lemma PageExtendsPrefix(rewards: seq<Reedem>, n: int)
    requires n >= 1
    ensures rewards[..Min((n - 1) * PageSize, |rewards|)] + PageOf(rewards, n) == rewards[..Min(n * PageSize, |rewards|)]
  {
    var lo := (n - 1) * PageSize;
    var hi := lo + PageSize;
    assert n * PageSize == hi;
    if lo < |rewards| {
      var end := Min(hi, |rewards|);
      assert rewards[..end] == rewards[..lo] + rewards[lo..end];
    }
  }

  function Pages(rewards: seq<Reedem>, n: nat): seq<Reedem>
  {
    if n == 0 then [] else Pages(rewards, n - 1) + PageOf(rewards, n)
  }

  /** The list after a successful redeem of reward `id`: those entries become unlocked, nothing else changes. */
  function Unlock(rs: seq<Reedem>, id: int): (r: seq<Reedem>)
    ensures |r| == |rs|
    ensures forall i :: 0 <= i < |rs| && rs[i].id != id ==> r[i] == rs[i]
    ensures forall i :: 0 <= i < |rs| && rs[i].id == id ==> r[i] == rs[i].(status := Unlocked)
  {
    seq(|rs|, i requires 0 <= i < |rs| => if rs[i].id == id then rs[i].(status := Unlocked) else rs[i])
  }

  class RedeemPage {
    const store: Store
    const user: Option<UserId>
    const page: int
    var reedems: seq<Reedem>
    var userPoints: int
    var activeFilter: Filter
    var loading: bool

    /** A freshly mounted page, on page 1 (the page is never changed). */
    constructor (store: Store, user: Option<UserId>)
      ensures this.store == store && this.user == user && page == 1
      ensures reedems == [] && userPoints == 0 && activeFilter == All && loading
    {
      this.store, this.user, page := store, user, 1;
      reedems, userPoints, activeFilter, loading := [], 0, All, true;
    }

    /**
     * Loads the balance with a `single` read (a missing row is an error and
     * leaves the balance) and the current page of rewards; each failed read
     * leaves its own field as it was.
     */
    method FetchData(pointsRead: Outcome, rewardsRead: Outcome)
      requires page >= 1
      modifies this`userPoints, this`reedems, this`loading
      ensures user.None? ==> unchanged(this)
      ensures user.Some? ==>
        && !loading
        && userPoints == (if pointsRead.Ok? && user.value in store.userPoints
                          then Or0(store.userPoints[user.value]) else old(userPoints))
        && reedems == (if rewardsRead.Ok? then PageOf(store.rewards, page) else old(reedems))
    {
      if user.None? {
        return;
      }
      loading := true;
      if pointsRead.Ok? && user.value in store.userPoints {
        userPoints := Or0(store.userPoints[user.value]);
      }
      if rewardsRead.Ok? {
        reedems := PageOf(store.rewards, page);
      }
      loading := false;
    }

    /**
     * Redeems `r`. With no user, or a balance below the cost (a missing cost
     * is 0), nothing happens and no request is made. Otherwise `redeem_reward`
     * is requested; on its error nothing else changes. On success the balance
     * drops by the cost, the matching entries become unlocked, and one
     * redemption row is inserted (when that insert succeeds; its result is
     * not checked).
     */
    method HandleRedeem(r: Reedem, rpc: Outcome, logInsert: Outcome)
      modifies this`userPoints, this`reedems, store`calls, store`redemptions
      ensures user.None? || old(userPoints) < Or0(r.points) ==>
        unchanged(this) && unchanged(store)
      ensures user.Some? && old(userPoints) >= Or0(r.points) ==>
        && store.calls == old(store.calls) + [RedeemReward(user.value, r.id)]
        && (rpc.Fail? ==> userPoints == old(userPoints) && reedems == old(reedems)
                          && store.redemptions == old(store.redemptions))
        && (rpc.Ok? ==> userPoints == old(userPoints) - Or0(r.points)
                        && reedems == Unlock(old(reedems), r.id)
                        && store.redemptions == old(store.redemptions)
                           + (if logInsert.Ok? then [Redemption(user.value, r.id)] else []))
    {
      if user.None? {
        return;
      }
      if userPoints < Or0(r.points) {
        return;
      }
      store.calls := store.calls + [RedeemReward(user.value, r.id)];
      if rpc.Fail? {
        return;
      }
      userPoints := userPoints - Or0(r.points);
      reedems := Unlock(reedems, r.id);
      if logInsert.Ok? {
        store.redemptions := store.redemptions + [Redemption(user.value, r.id)];
      }
    }

    method SetFilter(f: Filter)
      modifies this`activeFilter
      ensures activeFilter == f
    {
      activeFilter := f;
    }

    /** The rewards on screen. */
    function Shown(): seq<Reedem>
      reads this
    {
      Filtered(reedems, activeFilter)
    }
  }

  /** A user with 40 points cannot redeem a reward costing 50: nothing changes and nothing is requested. */
  method InsufficientScenario(store: Store, r: Reedem)
    requires r.points == Some(50)
    modifies store
  {
    var p := new RedeemPage(store, Some("u"));
    p.userPoints := 40;
    var calls, log := store.calls, store.redemptions;
    p.HandleRedeem(r, Ok, Ok);
    assert p.userPoints == 40 && store.calls == calls && store.redemptions == log;
  }
}
