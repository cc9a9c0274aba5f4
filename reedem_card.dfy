/**
 * One reward card: whether the reward can be redeemed, what the button and
 * overlay show, the icon and background picked from the reward's icon name,
 * and the click handler that brackets the page's redeem with a busy flag.
 */
module ReedemCard {
  import opened Common
  import opened Backend
  import Redeem

  /** The balance covers the cost (missing values count as 0) and the reward is available. */
  predicate CanRedeem(userPoints: int, r: Reedem)
  {
    userPoints >= Or0(r.points) && r.status != ComingSoon
  }

  function ButtonLabel(isRedeeming: bool, userPoints: int, r: Reedem): string
  {
    if isRedeeming then "Redeeming..."
    else if r.status == ComingSoon then "Coming Soon"
    else if CanRedeem(userPoints, r) then "Redeem Now"
    else "Locked"
  }

  predicate ButtonDisabled(isRedeeming: bool, userPoints: int, r: Reedem)
  {
    !CanRedeem(userPoints, r) || isRedeeming
  }

  predicate ShowsLockedOverlay(userPoints: int, r: Reedem)
  {
    !CanRedeem(userPoints, r) && r.status == Locked
  }

  /** The button, its label and the overlay tell the same story. */
  lemma CardIsConsistent(isRedeeming: bool, userPoints: int, r: Reedem)
    ensures ButtonLabel(isRedeeming, userPoints, r) == "Redeem Now" <==> !ButtonDisabled(isRedeeming, userPoints, r)
    ensures ButtonLabel(isRedeeming, userPoints, r) == "Coming Soon" <==> !isRedeeming && r.status == ComingSoon
    ensures ShowsLockedOverlay(userPoints, r) ==> ButtonDisabled(isRedeeming, userPoints, r)
    ensures ShowsLockedOverlay(userPoints, r) && !isRedeeming ==> ButtonLabel(isRedeeming, userPoints, r) == "Locked"
    ensures ButtonLabel(isRedeeming, userPoints, r) == "Locked" ==> userPoints < Or0(r.points)
  {
  }

  /** A card that lets the user redeem also passes the page's own balance check. */
  lemma CardGuardImpliesPageGuard(userPoints: int, r: Reedem)
    requires CanRedeem(userPoints, r)
    ensures !(userPoints < Or0(r.points))
  {
  }

  /** The icon drawn for a reward. */
  datatype IconStyle = GreenCreditCard | PurpleGift | BlueBookOpen | GrayPackage

  function IconFor(icon: Option<string>): IconStyle
  {
    if icon == Some("transfer") then GreenCreditCard
    else if icon == Some("gift") then PurpleGift
    else if icon == Some("course") then BlueBookOpen
    else GrayPackage
  }

  /** The background behind the icon. */
  function TypeColor(icon: Option<string>): string
  {
    if icon == Some("transfer") then "bg-green-50"
    else if icon == Some("gift") then "bg-purple-50"
    else if icon == Some("course") then "bg-blue-50"
    else "bg-gray-50"
  }

  /** The icon fixes the background: icon and colour are picked by the same three names. */
  lemma IconDeterminesColor(a: Option<string>, b: Option<string>)
    ensures IconFor(a) == IconFor(b) <==> TypeColor(a) == TypeColor(b)
    ensures IconFor(a) == GrayPackage <==> a !in {Some("transfer"), Some("gift"), Some("course")}
  {
  }

  /** A card on the redeem page; its balance is the page's own, passed down as a prop. */
  class ReedemCardView {
    const page: Redeem.RedeemPage
    const reedem: Reedem
    var isRedeeming: bool

    constructor (page: Redeem.RedeemPage, reedem: Reedem)
      ensures this.page == page && this.reedem == reedem
      ensures !isRedeeming
    {
      this.page, this.reedem := page, reedem;
      isRedeeming := false;
    }

    /**
     * The card's click handler: when the card says the reward cannot be
     * redeemed, the page's handler is not called and nothing changes;
     * otherwise the page redeems the reward (one `redeem_reward` request for
     * a signed-in user, whose balance always passes the page's own check) and
     * the busy flag is clear afterwards.
     */
    method HandleRedeem(rpc: Outcome, logInsert: Outcome) returns (called: bool)
      modifies this`isRedeeming, page`userPoints, page`reedems, page.store`calls, page.store`redemptions
      ensures called == CanRedeem(old(page.userPoints), reedem)
      ensures !called ==> unchanged(this) && unchanged(page) && unchanged(page.store)
      ensures called ==> !isRedeeming
      ensures called && page.user.None? ==> unchanged(page) && unchanged(page.store)
      ensures called && page.user.Some? ==>
        && page.store.calls == old(page.store.calls) + [RedeemReward(page.user.value, reedem.id)]
        && (rpc.Fail? ==> page.userPoints == old(page.userPoints) && page.reedems == old(page.reedems)
                          && page.store.redemptions == old(page.store.redemptions))
        && (rpc.Ok? ==> page.userPoints == old(page.userPoints) - Or0(reedem.points)
                        && page.reedems == Redeem.Unlock(old(page.reedems), reedem.id)
                        && page.store.redemptions == old(page.store.redemptions)
                           + (if logInsert.Ok? then [Redemption(page.user.value, reedem.id)] else []))
    {
      if !CanRedeem(page.userPoints, reedem) {
        return false;
      }
      CardGuardImpliesPageGuard(page.userPoints, reedem);
      isRedeeming := true;
      page.HandleRedeem(reedem, rpc, logInsert);
      isRedeeming := false;
      return true;
    }
  }
}
