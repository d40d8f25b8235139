/**
 * The redeem page: a fixed list of partner offers bought with coins. A
 * redemption is refused when the balance shown is below the cost; otherwise
 * the offer is marked as redeeming and, when its 1.5 s timer fires, the cost
 * is handed to `onRedeemSuccess` and the mark is cleared. The timer is an
 * explicit event here.
 */
module Redeem {
  import opened Common

  datatype Offer = Offer(id: int, brand: string, title: string, description: string, cost: int)

  const Offers: seq<Offer> := [
    Offer(1, "Tim Hortons", "Free Double-Double Coffee", "Enjoy Canada's favorite coffee on us!", 150),
    Offer(2, "Canadian Tire", "$10 Off Purchase", "Save on tools, automotive, and home goods", 300),
    Offer(3, "Loblaws", "$15 Grocery Credit", "Fresh groceries and essentials discount", 450),
    Offer(4, "Shoppers Drug Mart", "20% Off Beauty Products", "Skincare, makeup, and wellness items", 200),
    Offer(5, "Metro", "$20 Food Credit", "Quality groceries and fresh produce", 600),
    Offer(6, "Boston Pizza", "Free Appetizer", "Choose any starter with main course purchase", 250),
    Offer(7, "The Bay", "$25 Fashion Discount", "Clothing, accessories, and home decor", 750),
    Offer(8, "Cineplex", "Free Movie Ticket", "Any regular 2D movie showing", 400)
  ]

  /** Offer ids are unique and every cost is positive. */
  lemma OffersWellFormed()
    ensures forall i, j :: 0 <= i < j < |Offers| ==> Offers[i].id != Offers[j].id
    ensures forall i :: 0 <= i < |Offers| ==> Offers[i].cost > 0
  {
  }

  /** The redeem button is disabled when the balance is short or this offer is the one redeeming. */
  predicate ButtonDisabled(userCoins: int, redeeming: Option<int>, offer: Offer)
  {
    userCoins < offer.cost || redeeming == Some(offer.id)
  }

  datatype ButtonLabel = RedeemLabel | RedeemingLabel

  function Label(redeeming: Option<int>, offer: Offer): (l: ButtonLabel)
    ensures l == RedeemingLabel <==> redeeming == Some(offer.id)
  {
    if redeeming == Some(offer.id) then RedeemingLabel else RedeemLabel
  }

  /** A button is disabled for exactly two reasons: the offer is unaffordable, or it is the one redeeming. */
  lemma ButtonDisabledReasons(userCoins: int, redeeming: Option<int>, offer: Offer)
    ensures ButtonDisabled(userCoins, redeeming, offer) <==>
      userCoins < offer.cost || Label(redeeming, offer) == RedeemingLabel
  {
  }

  /** While an offer is marked as redeeming, its own button cannot start it again. */
  lemma RedeemingButtonDisabled(userCoins: int, redeeming: Option<int>, offer: Offer)
    requires Label(redeeming, offer) == RedeemingLabel
    ensures ButtonDisabled(userCoins, redeeming, offer)
  {
  }

  class RedeemPage {
    /** `redeeming`: the id of the offer last started, cleared by any timer. */
    var redeeming: Option<int>
    /** Offers whose timer is running, in start order. */
    var pending: seq<Offer>
    /** Offers whose cost has been handed to `onRedeemSuccess`, in order. */
    var paid: seq<Offer>
    /** Every redemption the guard let through. */
    ghost var started: seq<Offer>

    /**
     * Each redemption started is either still pending or paid, and paid
     * once; a marked offer is one whose timer is still running.
     */
    ghost predicate Valid()
      reads this
    {
      multiset(started) == multiset(pending) + multiset(paid) &&
      (redeeming.Some? ==> exists i :: 0 <= i < |pending| && pending[i].id == redeeming.value)
    }

    constructor()
      ensures Valid()
      ensures redeeming == None && pending == [] && paid == [] && started == []
    {
      redeeming, pending, paid := None, [], [];
      started := [];
    }

    /**
     * `handleRedeem`, on a button that is not marked as redeeming: refused,
     * with nothing changed, when the balance is below the cost; otherwise the offer is marked and its timer starts. Either way
     * the offer's own button is disabled afterwards.
     */
    method HandleRedeem(offer: Offer, userCoins: int) returns (accepted: bool)
      requires Valid()
      requires redeeming != Some(offer.id)  // the button is disabled while its offer is redeeming
      modifies this
      ensures Valid()
      ensures accepted <==> userCoins >= offer.cost
      ensures !accepted ==> ButtonDisabled(userCoins, redeeming, offer)
      ensures accepted ==> ButtonDisabled(userCoins, redeeming, offer) && Label(redeeming, offer) == RedeemingLabel
      ensures !accepted ==>
        redeeming == old(redeeming) && pending == old(pending) && paid == old(paid) && started == old(started)
      ensures accepted ==>
        redeeming == Some(offer.id) && pending == old(pending) + [offer] &&
        paid == old(paid) && started == old(started) + [offer]
    {
      if userCoins < offer.cost {
        return false;
      }
      redeeming := Some(offer.id);
      pending := pending + [offer];
      started := started + [offer];
      assert pending[|pending| - 1].id == offer.id;
      accepted := true;
    }

    /**
     * The timer of pending redemption `i` fires: its cost is paid exactly
     * once, the mark is cleared, and it is no longer pending.
     */
    method TimerFired(i: nat)
      requires Valid() && i < |pending|
      modifies this
      ensures Valid()
      ensures paid == old(paid) + [old(pending)[i]]
      ensures pending == old(pending)[..i] + old(pending)[i + 1..]
      ensures redeeming == None && started == old(started)
    {
      var offer := pending[i];
      assert pending == pending[..i] + [offer] + pending[i + 1..];
      paid := paid + [offer];
      pending := pending[..i] + pending[i + 1..];
      redeeming := None;
    }
  }
}
